# pyagrams coordinate and scene model in Dafny

This project models the core of pyagrams, a small Python library for drawing mathematical diagrams as SVG.
A **Figure** holds **Diagrams**. A Diagram is a framed rectangle whose `y` is measured from the bottom of
the figure. It holds loose points, loose vectors and **Axes**. An Axes is a local frame at `position` with
two axis vectors and an ordered `objects` list. Each object is resolved to diagram coordinates
(`position + local`) when it is inserted.

The model covers:

- the drawables: points, vectors with arrowheads, and cubic-Hermite splines converted to Bezier spans;
- the tick generator;
- the style rules;
- the serializer, which walks figure → diagrams → points, vectors, axes → entries;
- the older `diagram.py`/`figure.py` object model, in which every class draws itself.

Output is a sequence of SVG element values (`SvgElements.Element`), not formatted text.

Containers are classes whose methods update their fields in place. The value parts are datatypes:
coordinates (`Geometry.Pt`, over `real`), styles, the tagged `objects` entries, and the elements.

The two floating-point primitives the renderers use are parameters of every renderer:

- the arrowhead trigonometry, as `trig: Pt -> Arrows.Bearings`, which maps a direction to the unit vectors
  at the arrowhead angles;
- the span length `math.hypot`, as `hypot: (real, real) -> real`. `Hermite.IsNorm` states what the code
  relies on: the length is non-negative and is zero exactly for a zero displacement.

Module map:

| file | module | models |
|---|---|---|
| base.dfy | Base | optional values, raised errors (`TypeError`/`ValueError`), results |
| geometry.dfy | Geometry | `Point2D` arithmetic, `Transform`, the y-flip `H - y` |
| styles.dfy | Styles | `Style`, `dasharray`, `Theme` |
| primitives.dfy | Primitives | `BoundingBox`, the `BaseDrawable` style rule |
| svg_elements.dfy | SvgElements | the emitted SVG elements |
| arrows.dfy | Arrows | the shared `Vector.to_svg` computation |
| hermite.dfy | Hermite | the spline construction checks and the Hermite → Bezier conversion |
| render.dfy | Render | `objects` entries, per-entry drawing, the concatenation of chunks |
| ticks.dfy | Ticks | `add_ticks` |
| shapes.dfy | Shapes | core/geometry2d.py `Point`, `Vector`, `Spline` |
| axis_objects.dfy | AxisObjects | axis_objects/vector.py and axis_objects/spline.py |
| scene_axes.dfy | SceneAxes | scene/axes.py |
| scene_diagram.dfy | SceneDiagram | scene/diagram.py |
| exporter.dfy | SvgExport | exporters/svg.py |
| document.dfy | Document | the older diagram.py classes and figure.py |

Where the code and its documentation disagree, the model follows the code:

- Axes sizes are integers, because `add_ticks` passes them to `range`, which refuses floats.
- A diagram's `y` counts from the bottom only when a figure is known.

The older `Vector` of diagram.py has the same fields, setters and `to_svg` as the one in
axis_objects/vector.py. Only its default colour differs (gray). It is therefore modelled as an
`AxisObjects.Vector` built by `Document.NewVector`.

## Model

| member | source | states |
|---|---|---|
| Base.PairUnpackError | src/pyagrams/figure.py:13 | unpacking a sequence that does not hold two values raises ValueError |
| Geometry.Add | src/pyagrams/core/geometry2d.py:23-24 | componentwise sum; adding the origin changes nothing |
| Geometry.Sub | src/pyagrams/core/geometry2d.py:26-27 | componentwise difference; adding back the subtrahend gives the minuend; zero exactly for equal points |
| Geometry.AddSubInverse | src/pyagrams/core/geometry2d.py:23-27 | `(p + q) - q == p` and `(p - q) + q == p` |
| Geometry.ApplyToPoint | src/pyagrams/core/geometry2d.py:43-50 | the point moves by exactly `(dx, dy)`; the default transform is the identity |
| Geometry.FlipY | src/pyagrams/core/geometry2d.py:245-248 | x is kept and the new y plus the old y is the height |
| Geometry.FlipYInvolution | src/pyagrams/axis_objects/spline.py:39-42 | flipping twice against the same height gives the point back |
| Geometry.FlipYOfAdd | src/pyagrams/axis_objects/vector.py:40-46 | the flipped endpoint is the flipped start moved by dx and by -dy |
| Primitives.Width | src/pyagrams/core/primitives.py:16-18 | `min_x + width == max_x` |
| Primitives.Height | src/pyagrams/core/primitives.py:20-22 | `min_y + height == max_y` |
| Primitives.DefaultBBox | src/pyagrams/core/primitives.py:43-46 | the default box sits at the origin with width and height 0 |
| Primitives.ResolveStyle | src/pyagrams/core/primitives.py:28-36 | fails with ValueError exactly when a style object and keywords are both given; a style object alone is kept; otherwise each keyword overrides its default |
| Primitives.NoStyleGivesDefault | src/pyagrams/core/primitives.py:33-36 | no style object and no keywords give the `Style` defaults |
| Styles.DashPattern | src/pyagrams/axis_objects/spline.py:75 | "none" exactly for "solid", and "5,3" for every other style |
| Styles.DashArray | src/pyagrams/core/style.py:14-17 | a style's dash array is "none" exactly when its line style is solid, otherwise "5,3" |
| Styles.DashArrayIgnoresColorAndThickness | src/pyagrams/core/style.py:15-17 | styles with equal line styles have equal dash arrays |
| Styles.ThemeDashes | src/pyagrams/core/style.py:20-26 | default and highlight are solid, axes and subtle are dashed; thickness increases from axes to default to highlight |
| Arrows.EndPoint | src/pyagrams/axis_objects/vector.py:40-42 | the tip minus the start is the direction |
| Arrows.VectorDashArray | src/pyagrams/axis_objects/vector.py:49-51 | "8,2" exactly when dashed, "none" otherwise |
| Arrows.FragmentsShape | src/pyagrams/axis_objects/vector.py:53-104 | 1 fragment for a zero direction, 4 for a dashed vector and 3 for a solid one; the main line runs between the flipped ends; later fragments start at the flipped tip in the vector's stroke; a dashed vector's second fragment is the undashed gap fill; the last two are the wings |
| Arrows.MainLineUnflips | src/pyagrams/axis_objects/vector.py:44-56 | unflipping the main line gives back the start and the direction |
| Arrows.RenderVector | src/pyagrams/core/geometry2d.py:125-196 | the straight-line `to_svg` body with its conditional appends produces exactly `Fragments` |
| Hermite.CheckAnchors | src/pyagrams/axis_objects/spline.py:16-19 | no error exactly for two or more anchors with one tangent each; "too few points" is checked before "length mismatch" |
| Hermite.SpanLength | src/pyagrams/axis_objects/spline.py:63 | the span length is never zero |
| Hermite.SpanLengthFallback | src/pyagrams/core/geometry2d.py:269 | with a true norm, coincident anchors get length 1 and other anchors get their distance; always positive |
| Hermite.Control1 | src/pyagrams/core/geometry2d.py:272 | `3 (C1 - P0) == h m0` |
| Hermite.Control2 | src/pyagrams/core/geometry2d.py:273 | `3 (P1 - C2) == h m1` |
| Hermite.Spans | src/pyagrams/axis_objects/spline.py:57-73 | n spans, span i being the command from anchor i to anchor i + 1 |
| Hermite.CommandsAreSpans | src/pyagrams/core/geometry2d.py:261-279 | n anchors give exactly one `M` to the flipped first anchor and then n - 1 `C` commands, in anchor order |
| Hermite.CommandsShape | src/pyagrams/core/geometry2d.py:264-279 | command i ends at the flipped anchor i, and its controls are the flipped Hermite controls for that span's own length |
| Hermite.CoincidentAnchorsUseUnitLength | src/pyagrams/axis_objects/spline.py:63-67 | a span between coincident anchors has controls at the tangents over 3 |
| Hermite.SpanToSvg | src/pyagrams/axis_objects/spline.py:59-73 | one loop turn emits the span's command: the fallback length and the Hermite controls, flipped |
| Hermite.PathCommands | src/pyagrams/axis_objects/spline.py:51-73 | the `to_svg` loop builds exactly `Commands` |
| Render.PointFrom | src/pyagrams/scene/diagram.py:43-52 | succeeds exactly for `(x, y, size)` or a two-value coordinate list with a size; a list of another length fails to unpack with ValueError; any other form raises TypeError |
| Render.PointCircle | src/pyagrams/exporters/svg.py:56-60 | a black circle whose centre unflips to the point and whose radius is half the size |
| Render.TickLine | src/pyagrams/exporters/svg.py:96-103 | an undashed one-unit line whose ends unflip to the tick's ends |
| Render.ObjectChunks | src/pyagrams/exporters/svg.py:86-106 | one chunk per entry, chunk i being entry i's drawing |
| Render.BasicChunks | src/pyagrams/diagram.py:242-259 | one chunk per entry, chunk i being entry i's drawing without a spline branch |
| Render.PointCircles | src/pyagrams/exporters/svg.py:56-60 | one circle per loose point, in order |
| Render.VectorChunks | src/pyagrams/exporters/svg.py:63-64 | one fragment chunk per loose vector, in order |
| Render.Restyled | src/pyagrams/scene/axes.py:21-26 | an axis vector keeps its geometry and takes the axes' colour, thickness and line style |
| Render.TranslateY | src/pyagrams/exporters/svg.py:41-45 | with a figure of height H, `ty + height + y == H`; without one, `ty == y` |
| Render.FillValue | src/pyagrams/exporters/svg.py:51 | the fill colour when fill is enabled, "none" otherwise |
| Render.FlattenAppend | src/pyagrams/exporters/svg.py:29-30 | appending a chunk to the walk appends its elements at the end |
| Render.FlattenConcat | src/pyagrams/exporters/svg.py:63-68 | joining two runs of chunks is joining their outputs |
| Render.ChunkPlacement | src/pyagrams/exporters/svg.py:86-106 | chunk i appears whole in the output, at the offset given by the chunks before it |
| Render.ChunksInOrder | src/pyagrams/exporters/svg.py:67-68 | an earlier chunk ends before a later one starts |
| Render.FigureLayout | src/pyagrams/exporters/svg.py:18-34 | the document is header, background, earlier diagrams, diagram i, later diagrams, close tag |
| Render.BasicAgreesWithObject | src/pyagrams/diagram.py:242-259 | without splines, the older entry drawing and the serializer's agree chunk by chunk |
| Ticks.PyRangeElements | src/pyagrams/scene/axes.py:141 | element k of `range(start, stop, step)` is `start + k step`, and the run stops at the first value reaching `stop` |
| Ticks.TickOffsets | src/pyagrams/scene/axes.py:141 | `size div spacing` offsets (none for a negative size), offset k being `(k + 1) spacing <= size` |
| Ticks.TickShape | src/pyagrams/scene/axes.py:144-161 | inside, outside and middle shapes for both axes; an unknown placement gives no tick |
| Ticks.TickRun | src/pyagrams/scene/axes.py:141-152 | one tick per offset, in order, all of them ticks |
| Ticks.TickSegment | src/pyagrams/scene/axes.py:144-161 | one loop turn builds exactly the tick `TickAt` describes for that offset |
| Ticks.AppendTick | src/pyagrams/scene/axes.py:141-152 | one loop turn appends the tick for offset k after those for the earlier offsets |
| Ticks.AxisTicksLayout | src/pyagrams/scene/axes.py:141-152 | with a positive spacing and a known placement, one loop adds `size div spacing` ticks, tick k at offset `(k + 1) spacing` |
| Ticks.TicksLayout | src/pyagrams/scene/axes.py:135-165 | the x ticks come first, then the y ticks, each loop only when the orientation asks for it |
| Ticks.AxisTicksErrors | src/pyagrams/scene/axes.py:148-150 | an unknown placement fails exactly when the loop has a tick to draw |
| Ticks.TicksErrors | src/pyagrams/scene/axes.py:140-165 | zero spacing raises range's ValueError; an unknown placement fails exactly when a running loop has a tick; an unknown orientation adds nothing |
| Ticks.AppendAxisTicks | src/pyagrams/scene/axes.py:141-152 | the loop appends exactly `AxisTicks`, or it fails with the objects unchanged |
| Ticks.AppendTicks | src/pyagrams/scene/axes.py:140-164 | both loops append exactly `TicksFor`, or they fail with the objects unchanged |
| Ticks.OnlyTicks | src/pyagrams/diagram.py:215 | every entry `add_ticks` appends is a tick |
| Shapes.Point.Circle | src/pyagrams/core/geometry2d.py:73-79 | a circle in the style's colour whose centre unflips to the coordinates and whose radius is half the size |
| Shapes.NewPoint | src/pyagrams/core/geometry2d.py:63-66 | the point gets the base rule's style, or the constructor raises its error |
| Shapes.VectorKeywords | src/pyagrams/core/geometry2d.py:86-93 | thickness and line style are always present, so the keywords are never empty |
| Shapes.SplineKeywords | src/pyagrams/core/geometry2d.py:213-217 | thickness is always present, so the keywords are never empty |
| Shapes.StyleObjectAlwaysRejected | src/pyagrams/core/geometry2d.py:86-93 | as written, any style object given to a vector or a spline raises ValueError |
| Shapes.CorrectedStyleRule | src/pyagrams/core/primitives.py:28-36 | a style object alone is used, a style object with keywords is refused, and without one the defaults are dashed width 1 (vector) and solid width 1 (spline) |
| Shapes.Vector.AsArrow | src/pyagrams/core/geometry2d.py:125-131 | `to_svg` reads the geometry and the style's stroke |
| Shapes.Vector.SetLineStyle | src/pyagrams/core/geometry2d.py:98-103 | only "dashed"/"solid" are accepted; on refusal the style is unchanged |
| Shapes.Vector.SetColor | src/pyagrams/core/geometry2d.py:105-108 | only the style's colour changes |
| Shapes.Vector.SetThickness | src/pyagrams/core/geometry2d.py:110-113 | only the style's thickness changes |
| Shapes.Vector.ToSvg | src/pyagrams/core/geometry2d.py:125-196 | the output is the vector's fragments |
| Shapes.NewVector | src/pyagrams/core/geometry2d.py:86-96 | the defaults are the origin and direction (10, 10) with arrow size 8; the style comes from the defaulted keywords (dashed, width 1), so passing a style object raises ValueError |
| Shapes.Spline.Curve | src/pyagrams/core/geometry2d.py:281-284 | the spline is drawn with its style's colour, thickness and dash array |
| Shapes.Spline.SetLineStyle | src/pyagrams/core/geometry2d.py:222-227 | only "solid"/"dashed" are accepted; on refusal the style is unchanged; the anchors are kept |
| Shapes.Spline.SetColor | src/pyagrams/core/geometry2d.py:229-232 | only the style's colour changes |
| Shapes.Spline.SetThickness | src/pyagrams/core/geometry2d.py:234-237 | only the style's thickness changes |
| Shapes.Spline.ToSvg | src/pyagrams/core/geometry2d.py:251-285 | one path of all spans, stroked with the style |
| Shapes.NewSpline | src/pyagrams/core/geometry2d.py:207-219 | the anchor checks come before the style; the style comes from the defaulted keywords, so passing a style object raises ValueError; on success the anchors and tangents are stored as given |
| AxisObjects.Vector.constructor | src/pyagrams/axis_objects/vector.py:10-16 | defaults: origin, direction (10, 10), black, width 1, dashed, arrow size 8 |
| AxisObjects.Vector.AsArrow | src/pyagrams/axis_objects/vector.py:35-56 | `to_svg` reads the fields as they are |
| AxisObjects.Vector.SetLineStyle | src/pyagrams/axis_objects/vector.py:18-23 | only "dashed"/"solid" are accepted; on refusal nothing changes |
| AxisObjects.Vector.SetColor | src/pyagrams/axis_objects/vector.py:25-28 | only the colour changes |
| AxisObjects.Vector.SetThickness | src/pyagrams/axis_objects/vector.py:30-33 | only the thickness changes |
| AxisObjects.Vector.ToSvg | src/pyagrams/axis_objects/vector.py:35-106 | the output is the vector's fragments |
| AxisObjects.Spline.Curve | src/pyagrams/axis_objects/spline.py:75 | the dash array is "none" for solid and "5,3" otherwise |
| AxisObjects.Spline.SetLineStyle | src/pyagrams/axis_objects/spline.py:29-33 | only "solid"/"dashed" are accepted; on refusal the line style is unchanged |
| AxisObjects.Spline.SetColor | src/pyagrams/axis_objects/spline.py:35 | only the colour changes |
| AxisObjects.Spline.SetThickness | src/pyagrams/axis_objects/spline.py:36 | only the thickness changes |
| AxisObjects.Spline.ToSvg | src/pyagrams/axis_objects/spline.py:45-80 | one path of all spans with the line style's dash pattern |
| AxisObjects.NewSpline | src/pyagrams/axis_objects/spline.py:14-26 | ValueError for fewer than two anchors, then for mismatched lengths; otherwise the anchors, tangents and stroke are stored |
| SceneAxes.Shifted | src/pyagrams/scene/axes.py:77-78 | same length and order, each anchor moved by the origin |
| SceneAxes.Axes.constructor | src/pyagrams/scene/axes.py:8-19 | defaults: origin, 10 by 10, gray, width 1, dashed, no entries; the axis vectors run along each axis and carry the axes' style |
| SceneAxes.Axes.UpdateVectorStyles | src/pyagrams/scene/axes.py:21-26 | both axis vectors take the axes' style; their geometry is unchanged |
| SceneAxes.Axes.Resize | src/pyagrams/scene/axes.py:28-34 | the size changes and the axis vectors follow it; the entries stay |
| SceneAxes.Axes.MoveTo | src/pyagrams/scene/axes.py:36-42 | the origin changes and the axis vectors follow it; the entries stay where they were put |
| SceneAxes.Axes.SetStyle | src/pyagrams/scene/axes.py:44-50 | "dashed"/"solid" are set and synced to both vectors; anything else raises ValueError and changes nothing |
| SceneAxes.Axes.AddPoint | src/pyagrams/scene/axes.py:52-60 | exactly one point entry at `position + coords` is appended; earlier entries are unchanged |
| SceneAxes.Axes.AddPointCompat | src/pyagrams/scene/axes.py:167-169 | the same append as `add_point` |
| SceneAxes.Axes.AddVector | src/pyagrams/scene/axes.py:62-73 | a fresh solid vector at `position + relative` with the direction unchanged is appended and returned |
| SceneAxes.Axes.AddLine | src/pyagrams/scene/axes.py:171-174 | the appended vector starts at `position + start` and ends at `position + end` |
| SceneAxes.Axes.AddSpline | src/pyagrams/scene/axes.py:75-81 | the spline's anchors become the shifted anchors, same length and order; tangents and style are kept; the spline is appended |
| SceneAxes.Axes.AddObject | src/pyagrams/scene/axes.py:83-128 | a fresh drawable of the same kind at `position + local` is appended; the argument's coordinates are not modified; anything else raises TypeError and changes nothing |
| SceneAxes.Axes.AddTicks | src/pyagrams/scene/axes.py:135-165 | the entries grow by exactly `TicksFor`, or the error is returned with the entries unchanged |
| SceneAxes.VectorAddTo | src/pyagrams/core/geometry2d.py:115-123 | round trip: the appended entry is a solid black width-1 vector with arrow size 8 that starts at `v`'s own position and has `v`'s direction; the axes' settings are unchanged |
| SceneAxes.PointAddTo | src/pyagrams/core/geometry2d.py:68-71 | appends the point at `axes.position + coords` |
| SceneAxes.SplineAddTo | src/pyagrams/core/geometry2d.py:239-242 | the spline is shifted into the axes and appended |
| SceneAxes.UnpackPointEntry | src/pyagrams/exporters/svg.py:88 | unpacking into three names passes exactly on three fields and otherwise gives Python's "not enough"/"too many values" ValueError |
| SceneAxes.AddObjectPointAsWritten | src/pyagrams/scene/axes.py:92-97 | as written: the prefix is kept and one two-field entry holding the size and the point shifted by the origin is appended |
| SceneAxes.AddPointRaw | src/pyagrams/scene/axes.py:52-60 | the prefix is kept and one three-field entry holding the size and the point shifted by the origin is appended |
| SceneAxes.ExportPointEntries | src/pyagrams/exporters/svg.py:86-91 | the point entries export exactly when every entry has three fields, one circle per entry |
| SceneAxes.AddObjectPointBreaksExport | src/pyagrams/scene/axes.py:97 | as written, exporting after `add_object(point)` always fails, with "not enough values to unpack (expected 3, got 2)" when the earlier entries were fine; after `add_point` the earlier circles are followed by the new point's circle |
| SceneDiagram.Diagram.constructor | src/pyagrams/scene/diagram.py:9-19 | 200 by 200 at (0, 0), unfilled, with empty lists |
| SceneDiagram.Diagram.Resize | src/pyagrams/scene/diagram.py:21-25 | only width and height change |
| SceneDiagram.Diagram.MoveTo | src/pyagrams/scene/diagram.py:27-31 | only x and y change |
| SceneDiagram.Diagram.Fill | src/pyagrams/scene/diagram.py:33-41 | `None` disables fill with "none"; a colour enables it; the drawn fill is the colour or "none" |
| SceneDiagram.Diagram.AddPoint | src/pyagrams/scene/diagram.py:43-52 | appends the parsed point, or returns the error with the points unchanged |
| SceneDiagram.Diagram.AddPointCompat | src/pyagrams/scene/diagram.py:83-85 | appends `(coords[0], coords[1], size)` |
| SceneDiagram.Diagram.AddAxes | src/pyagrams/scene/diagram.py:54-64 | appends and returns the given Axes, or a fresh one built from position and size |
| SceneDiagram.Diagram.AddVector | src/pyagrams/scene/diagram.py:66-77 | the vector, given or fresh, is made solid, appended and returned |
| SceneDiagram.Diagram.AddLine | src/pyagrams/scene/diagram.py:87-90 | a solid vector from start that ends at end is appended |
| SceneDiagram.AxesAddTo | src/pyagrams/scene/axes.py:129-132 | the axes is appended to the diagram |
| SceneDiagram.AxesChunks | src/pyagrams/exporters/svg.py:67-68 | one chunk per axes |
| SceneDiagram.AxesChunkAt | src/pyagrams/exporters/svg.py:67-68 | chunk i is axes i's drawing |
| SceneDiagram.AxesChunksStep | src/pyagrams/exporters/svg.py:67-68 | one more axes appends its drawing at the end |
| SvgExport.EntryToSvg | src/pyagrams/exporters/svg.py:86-106 | each branch draws the entry as `ObjectElements` says |
| SvgExport.EntriesToSvg | src/pyagrams/exporters/svg.py:86-106 | the entries are drawn in `objects` order |
| SvgExport.AxesToSvg | src/pyagrams/exporters/svg.py:74-107 | the x vector, then the y vector in the axes' style, then the entries |
| SvgExport.AppendAxes | src/pyagrams/exporters/svg.py:67-68 | one loop turn appends axes i's drawing |
| Render.PointsToSvg | src/pyagrams/exporters/svg.py:56-60 | the loose points are drawn in insertion order, one black circle each; the older `Diagram.to_svg` (diagram.py:358-362) runs the same loop |
| Render.VectorsToSvg | src/pyagrams/exporters/svg.py:63-64 | the loose vectors are drawn in insertion order, each as its fragments; the older `Diagram.to_svg` (diagram.py:365-366) runs the same loop |
| SvgExport.AxesListToSvg | src/pyagrams/exporters/svg.py:67-68 | the axes are drawn in insertion order |
| SvgExport.DiagramToSvg | src/pyagrams/exporters/svg.py:36-72 | group, border, points, vectors, axes, close, translated to `TranslateY` |
| SvgExport.DiagramChunks | src/pyagrams/exporters/svg.py:29-30 | one chunk per diagram |
| SvgExport.DiagramChunksStep | src/pyagrams/exporters/svg.py:29-30 | one more diagram appends its drawing at the end |
| SvgExport.AppendDiagram | src/pyagrams/exporters/svg.py:29-30 | one loop turn appends diagram i's drawing against the figure height |
| SvgExport.DiagramsToSvg | src/pyagrams/exporters/svg.py:29-30 | the diagrams are drawn in insertion order |
| SvgExport.FigureToSvg | src/pyagrams/exporters/svg.py:18-34 | header and white background at the figure size, the diagrams, the close tag |
| SvgExport.DiagramChunkAt | src/pyagrams/exporters/svg.py:29-30 | chunk i is diagram i's drawing against the figure height |
| SvgExport.DiagramOpensTranslated | src/pyagrams/exporters/svg.py:41-53 | a diagram opens with a group at `(x, H - height - y)`, then its border, and ends with the close tag |
| SvgExport.DiagramPlacement | src/pyagrams/exporters/svg.py:18-34 | each diagram sits whole after the diagrams added before it and before those added after it |
| Document.NewVector | src/pyagrams/diagram.py:10-16 | defaults: origin, direction (10, 10), gray, width 1, dashed, arrow size 8 |
| Document.Axes.constructor | src/pyagrams/diagram.py:126-137 | defaults: origin, 10 by 10, gray, width 1, dashed, no entries; the axis vectors carry the axes' style |
| Document.Axes.UpdateVectorStyles | src/pyagrams/diagram.py:139-144 | both axis vectors take the axes' style; their geometry is unchanged |
| Document.Axes.Resize | src/pyagrams/diagram.py:146-152 | the size changes and the axis vector directions follow it |
| Document.Axes.MoveTo | src/pyagrams/diagram.py:154-160 | the origin changes and the axis vector positions follow it |
| Document.Axes.SetStyle | src/pyagrams/diagram.py:162-168 | "dashed"/"solid" are set and synced; anything else raises ValueError and changes nothing |
| Document.Axes.AddPoint | src/pyagrams/diagram.py:170-178 | one point entry at `position + coords` is appended at the end |
| Document.Axes.AddVector | src/pyagrams/diagram.py:180-191 | a fresh solid gray vector at `position + relative` is appended and returned |
| Document.Axes.AddTicks | src/pyagrams/diagram.py:198-228 | the same ticks and errors as the scene version; only ticks are appended |
| Document.Axes.ToSvg | src/pyagrams/diagram.py:230-261 | the axis vectors in the axes' style, then the entries in order |
| Document.EntryToSvg | src/pyagrams/diagram.py:242-259 | point, vector and tick branches; no spline branch |
| Document.EntriesToSvg | src/pyagrams/diagram.py:242-259 | the entries are drawn in `objects` order |
| Document.RenderersAgree | src/pyagrams/diagram.py:230-261 | for entries the older Axes can hold, its drawing equals the serializer's |
| Document.AxesAddTo | src/pyagrams/diagram.py:193-196 | the axes is appended to the diagram |
| Document.Diagram.constructor | src/pyagrams/diagram.py:265-275 | 200 by 200 at (0, 0) with the given figure, unfilled, with empty lists |
| Document.Diagram.Resize | src/pyagrams/diagram.py:277-281 | only width and height change |
| Document.Diagram.MoveTo | src/pyagrams/diagram.py:283-287 | only x and y change |
| Document.Diagram.Fill | src/pyagrams/diagram.py:289-297 | `None` disables fill with "none"; a colour enables it |
| Document.Diagram.AddPoint | src/pyagrams/diagram.py:299-308 | appends the parsed point, or raises with the points unchanged |
| Document.Diagram.AddAxes | src/pyagrams/diagram.py:310-320 | appends and returns the given Axes, or a fresh one |
| Document.Diagram.AddVector | src/pyagrams/diagram.py:322-333 | the vector, given or fresh, is made solid, appended and returned |
| Document.Diagram.ToSvg | src/pyagrams/diagram.py:336-374 | group at `(x, figure height - height - y)` or `(x, y)`, border, points, vectors, axes, close |
| Document.AxesChunks | src/pyagrams/diagram.py:369-370 | one chunk per axes |
| Document.AxesChunksStep | src/pyagrams/diagram.py:369-370 | one more axes appends its drawing at the end |
| Document.AppendAxes | src/pyagrams/diagram.py:369-370 | one loop turn appends axes i's `to_svg` |
| Document.AxesListToSvg | src/pyagrams/diagram.py:369-370 | the axes are drawn in insertion order |
| Document.Figure.constructor | src/pyagrams/figure.py:6-9 | 800 by 600 with no diagrams |
| Document.Figure.Resize | src/pyagrams/figure.py:11-14 | a two-value list sets exactly the width and the height; any other length raises ValueError and changes nothing |
| Document.Figure.AddDiagram | src/pyagrams/figure.py:16-21 | the diagram now refers to this figure and is appended last; the earlier diagrams keep their order |
| Document.Figure.ToSvg | src/pyagrams/figure.py:23-39 | header, white background, each diagram in order, close tag |
| Document.DiagramChunks | src/pyagrams/figure.py:34-35 | one chunk per diagram |
| Document.DiagramChunksStep | src/pyagrams/figure.py:34-35 | one more diagram appends its drawing at the end |
| Document.AppendDiagram | src/pyagrams/figure.py:35 | one loop turn appends diagram i's drawing |
| Document.DiagramsToSvg | src/pyagrams/figure.py:34-35 | the diagrams are drawn in insertion order |
| Document.DiagramChunkAt | src/pyagrams/figure.py:34-35 | chunk i is diagram i's drawing |
| Document.PlacedInFigure | src/pyagrams/diagram.py:341-350 | a diagram whose figure is this figure sits whole between the diagrams around it, translated to `(x, H - height - y)` for the figure's current height |
| Document.UnplacedDiagram | src/pyagrams/diagram.py:345-350 | a diagram without a figure is translated by its own `(x, y)` |

## Left out

- Arrowhead trigonometry (`arctan2`, `cos`, `sin`) and `math.hypot` are floating-point functions. They are parameters of the renderers. Only the fragment structure and the Hermite formulas around them are modelled.
- Number formatting, the SVG text and its `'\n'.join`: the output is a sequence of element values.
- File output: `SVGExporter.export` and `Figure.save`. The debug `print`s of the older `Diagram.to_svg` are also left out.
- Labels (`set_label`, `label`, `label_position`) are not modelled. No core file defines them on the geometry drawables; only the scripts call `set_label`.
- SceneAxes.VectorAddTo: coordinates are exact reals. Python floats round, so the source's subtract-then-add round trip (like `Geometry.AddSubInverse`'s `(p + q) - q == p`) is exact only when the coordinates are exactly representable, e.g. integers; for `0.1` and `0.7` it gives `0.09999999999999998`. Float rounding is not modelled.
- SceneAxes.Axes.AddObject: assumes `obj.label` is unset (falsy) on every branch. As the core files stand, the drawables have no `label` attribute, so the reads at scene/axes.py:94, 109 and 121 raise AttributeError before anything is appended. The model does not raise that error.
- Scripts and wiring are not part of this model: main.py, example.py, vector_demo.py, the `__init__.py` files and the empty core/geometry3d.py.
- axis_objects/point.py and the older `Point` of diagram.py are not part of this model. They only store fields and delegate to an Axes' `addPoint`; the older Axes has no such method.
- Aliasing: objects stored in containers are value snapshots, except the child Axes of a Diagram and the Diagrams of a Figure, which are references. So the model does not capture these source behaviours:
  - later changes to a stored vector or spline show up in the output;
  - the axis vectors share the axes' position list;
  - `add_object` shares a Style object between the argument and the new vector.
- Shadowed setters: the Axes `size`/`position`, vector `style`/`color`/`thickness` and Spline `style` methods are hidden by instance attributes of the same name. Their bodies are modelled as `Resize`, `MoveTo`, `SetStyle`, `SetLineStyle`, `SetColor` and `SetThickness`. Setters return `self`, and so do `Vector.add_to`/`Spline.add_to`; the model returns an outcome or nothing.
- SceneAxes.Axes.Rendered: the serializer calls `_update_vector_styles` before drawing. The model draws the restyled axis vectors (`Render.Restyled`) without writing the style back, so the vectors' stored style after an export is not modelled. The older Axes (`Document.Axes.Rendered`) is treated the same way.
- Scene `Diagram.addAxes` and the scene Diagram's unused `figure` parameter are left out. `addAxes` is `add_axes` under another name.
- Axes sizes are integers. A float size makes `range` raise TypeError in `add_ticks`, and that error is not modelled.
- Arguments of the wrong Python type (non-iterable sizes, non-numeric coordinates) and unknown style keywords are not modelled.
- Python truthiness of `position or [0, 0]`: an explicitly empty position list is not modelled, only a missing one.
- The type name in `add_object`'s TypeError message is a string parameter rather than a Python type's `repr`.

## Findings

| source | as written | input that shows it | evidently intended | confidence | as-written member | corrected member |
|---|---|---|---|---|---|---|
| src/pyagrams/core/geometry2d.py:86-93 | `Vector.__init__` and `Spline.__init__` (lines 207-217) always add `thickness` (and, for vectors, `line_style`) to the keywords before calling the drawable base, so the base sees a style object and keywords together | `Vector(style=Style())` or `Spline([[0,0],[1,1]], [[1,0],[1,0]], style=Style())` raises "Cannot specify both style object and style keywords" | the defaults apply only when no style object is given | not executed | Shapes.StyleObjectAlwaysRejected | Shapes.CorrectedStyleRule |
| src/pyagrams/scene/axes.py:97 | `add_object` stores a point as the two-field entry `("point", new_point)`, but `axes_to_svg` (exporters/svg.py:88) unpacks point entries into three fields | once drawables carry a `label` attribute (scene/axes.py:94 reads it first; without it the call raises AttributeError), `axes.add_object(Point(4, [1, 1]))` followed by exporting the figure raises "not enough values to unpack (expected 3, got 2)" | the entry `("point", size, coords)` that `add_point` stores | not executed | SceneAxes.AddObjectPointBreaksExport | SceneAxes.Axes.AddObject |
