/**
 * What the containers store and how the serializer walk lays their output out: the tagged entries of
 * `Axes.objects`, the per-object drawing, and the concatenation of children chunks in insertion order
 * (exporters/svg.py and the `to_svg` methods of diagram.py and figure.py).
 */
module Render {
  import opened Base
  import opened Geometry
  import opened SvgElements
  import opened Arrows
  import opened Hermite

  /** A spline as an Axes stores it: its anchors, its tangents and the stroke it is drawn with. */
  datatype SplineData = SplineData(points: seq<Pt>, tangents: seq<Pt>, color: string, thickness: real, dashArray: string)

  /** Splines that passed the constructor's checks. */
  type Curve = s: SplineData | ValidAnchors(s.points, s.tangents)
    witness SplineData([Origin, Origin], [Origin, Origin], "black", 1.0, "none")

  /** An entry of `Axes.objects`: the source's `("point", size, coords)`, `("vector", v)`, `("spline", s)`, `("tick", start, end, color)`. */
  datatype AxesObject =
    | PointObj(size: real, coords: Pt)
    | VectorObj(arrow: Arrow)
    | SplineObj(curve: Curve)
    | TickObj(start: Pt, end: Pt, color: string)

  /** An axes' extent along x and along y; whole numbers, since the tick loops take `range` over them. */
  datatype Size = Size(width: int, height: int)

  /** A loose point of a diagram, the `(x, y, size)` tuple of `_points`. */
  datatype LoosePoint = LoosePoint(x: real, y: real, size: real)

  /**
   * The argument forms a diagram's `add_point(*args)` distinguishes: three values, or a list or tuple of
   * coordinates followed by a size, or anything else.
   */
  datatype PointArgs = Flat(x: real, y: real, size: real) | Nested(coords: seq<real>, size: real) | Malformed

  const PointArgsMessage := "add_point expects (x, y, size) or ([x, y], size)"

  /** The point `add_point` appends, or its error: a coordinate list must unpack into exactly two values. */
  function PointFrom(args: PointArgs): (r: Result<LoosePoint>)
    ensures r.Success? <==> args.Flat? || (args.Nested? && |args.coords| == 2)
    ensures args.Flat? ==> r == Success(LoosePoint(args.x, args.y, args.size))
    ensures args.Nested? && |args.coords| == 2 ==> r == Success(LoosePoint(args.coords[0], args.coords[1], args.size))
    ensures args.Nested? && |args.coords| != 2 ==> r == Failure(PairUnpackError(|args.coords|))
    ensures args.Malformed? ==> r == Failure(TypeError(PointArgsMessage))
  {
    match args
    case Flat(x, y, size) => Success(LoosePoint(x, y, size))
    case Nested(coords, size) =>
      if |coords| == 2 then Success(LoosePoint(coords[0], coords[1], size)) else Failure(PairUnpackError(|coords|))
    case Malformed => Failure(TypeError(PointArgsMessage))
  }

  /** A point drawn in a container of height `h`: a black circle of radius size / 2 centred on the flipped point. */
  function PointCircle(coords: Pt, size: real, h: real): (e: Element)
    ensures e.Circle? && FlipY(Pt(e.cx, e.cy), h) == coords && 2.0 * e.r == size && e.fill == "black"
  {
    Circle(coords.x, h - coords.y, size / 2.0, "black")
  }

  /** A tick drawn in a container of height `h`: a one-unit line between its flipped ends. */
  function TickLine(start: Pt, end: Pt, color: string, h: real): (e: Element)
    ensures e.Line? && FlipY(e.from, h) == start && FlipY(e.to, h) == end && e.strokeWidth == 1.0 && e.dash.None?
  {
    Line(FlipY(start, h), FlipY(end, h), color, 1.0, None, false)
  }

  /** A spline drawn in a container of height `h`: one path holding all of its spans. */
  function SplinePath(c: Curve, h: real, hypot: (real, real) -> real): Element
  {
    CubicPath(Commands(c.points, c.tangents, h, hypot), c.color, c.thickness, c.dashArray)
  }

  /** An entry as the older `Axes.to_svg` of diagram.py draws it; that method has no spline branch. */
  function BasicElements(o: AxesObject, h: real, trig: Pt -> Bearings): seq<Element>
  {
    match o
    case PointObj(size, coords) => [PointCircle(coords, size, h)]
    case VectorObj(v) => Fragments(v, h, trig)
    case TickObj(start, end, color) => [TickLine(start, end, color, h)]
    case SplineObj(_) => []
  }

  /** An entry as `axes_to_svg` draws it. */
  function ObjectElements(o: AxesObject, h: real, trig: Pt -> Bearings, hypot: (real, real) -> real): seq<Element>
  {
    if o.SplineObj? then [SplinePath(o.curve, h, hypot)] else BasicElements(o, h, trig)
  }

  /** The chunks of a walk, joined in order. */
  function Flatten(chunks: seq<seq<Element>>): seq<Element>
  {
    if chunks == [] then [] else Flatten(chunks[..|chunks| - 1]) + chunks[|chunks| - 1]
  }

  /** One chunk per entry, in `objects` order (`axes_to_svg`). */
  function ObjectChunks(objs: seq<AxesObject>, h: real, trig: Pt -> Bearings, hypot: (real, real) -> real): (r: seq<seq<Element>>)
    ensures |r| == |objs|
    ensures forall i | 0 <= i < |objs| :: r[i] == ObjectElements(objs[i], h, trig, hypot)
  {
    if objs == [] then []
    else ObjectChunks(objs[..|objs| - 1], h, trig, hypot) + [ObjectElements(objs[|objs| - 1], h, trig, hypot)]
  }

  /** One chunk per entry, in `objects` order (the older `Axes.to_svg`). */
  function BasicChunks(objs: seq<AxesObject>, h: real, trig: Pt -> Bearings): (r: seq<seq<Element>>)
    ensures |r| == |objs|
    ensures forall i | 0 <= i < |objs| :: r[i] == BasicElements(objs[i], h, trig)
  {
    if objs == [] then [] else BasicChunks(objs[..|objs| - 1], h, trig) + [BasicElements(objs[|objs| - 1], h, trig)]
  }

  /** One circle per loose point, in insertion order. */
  function PointCircles(points: seq<LoosePoint>, h: real): (r: seq<Element>)
    ensures |r| == |points|
    ensures forall i | 0 <= i < |points| :: r[i] == PointCircle(Pt(points[i].x, points[i].y), points[i].size, h)
  {
    if points == [] then []
    else PointCircles(points[..|points| - 1], h) + [PointCircle(Pt(points[|points| - 1].x, points[|points| - 1].y), points[|points| - 1].size, h)]
  }

  /** One chunk per loose vector, in insertion order. */
  function VectorChunks(vs: seq<Arrow>, h: real, trig: Pt -> Bearings): (r: seq<seq<Element>>)
    ensures |r| == |vs|
    ensures forall i | 0 <= i < |vs| :: r[i] == Fragments(vs[i], h, trig)
  {
    if vs == [] then [] else VectorChunks(vs[..|vs| - 1], h, trig) + [Fragments(vs[|vs| - 1], h, trig)]
  }

  /** An axis vector as drawn: `_update_vector_styles` first gives it the axes' colour, thickness and line style. */
  function Restyled(v: Arrow, color: string, thickness: real, lineStyle: string): (r: Arrow)
    ensures r.position == v.position && r.direction == v.direction && r.arrowSize == v.arrowSize
    ensures r.color == color && r.thickness == thickness && r.lineStyle == lineStyle
  {
    v.(color := color, thickness := thickness, lineStyle := lineStyle)
  }

  /** An Axes' output: its x vector, its y vector, then its entries' chunks. */
  function AxesElements(xVector: Arrow, yVector: Arrow, chunks: seq<seq<Element>>, h: real, trig: Pt -> Bearings): seq<Element>
  {
    Fragments(xVector, h, trig) + Fragments(yVector, h, trig) + Flatten(chunks)
  }

  /**
   * The y of a diagram group's translation. A diagram's `y` is its distance from the bottom of the figure,
   * so with a figure of height H the group's top edge goes to H - height - y; without one `y` is used as is.
   */
  function TranslateY(figureHeight: Option<real>, height: real, y: real): (ty: real)
    ensures figureHeight.Some? ==> ty + height + y == figureHeight.value
    ensures figureHeight.None? ==> ty == y
  {
    if figureHeight.Some? then figureHeight.value - height - y else y
  }

  /** The border's fill: the diagram's colour when fill is enabled, otherwise none. */
  function FillValue(fill: string, fillEnabled: bool): (r: string)
    ensures fillEnabled ==> r == fill
    ensures !fillEnabled ==> r == "none"
  {
    if fillEnabled then fill else "none"
  }

  /**
   * A diagram's output: the translated group, its border rect, its loose points, its loose vectors, its
   * axes, and the closing tag.
   */
  function DiagramElements(tx: real, ty: real, width: real, height: real, fill: string,
                           points: seq<LoosePoint>, vectorChunks: seq<seq<Element>>, axesChunks: seq<seq<Element>>): seq<Element>
  {
    [GroupOpen(tx, ty), Rect(width, height, fill, true)]
    + PointCircles(points, height) + Flatten(vectorChunks) + Flatten(axesChunks)
    + [GroupClose]
  }

  /** A figure's output: the root tag, the full-size white background, one chunk per diagram, the closing tag. */
  function FigureElements(width: real, height: real, diagramChunks: seq<seq<Element>>): seq<Element>
  {
    [SvgOpen(width, height), Rect(width, height, "white", false)] + Flatten(diagramChunks) + [SvgClose]
  }

  /** Where chunk `i` starts in the flattened walk. */
  function Offset(chunks: seq<seq<Element>>, i: nat): nat
    requires i <= |chunks|
  {
    |Flatten(chunks[..i])|
  }

  /** Flattening a prefix and appending the next chunk is flattening the longer prefix. */
  lemma {:induction false} FlattenAppend(chunks: seq<seq<Element>>, c: seq<Element>)
    ensures Flatten(chunks + [c]) == Flatten(chunks) + c
  {
    assert (chunks + [c])[..|chunks|] == chunks;
  }

  /** Flattening distributes over concatenation of the chunk list. */
  lemma {:induction false} FlattenConcat(a: seq<seq<Element>>, b: seq<seq<Element>>)
    ensures Flatten(a + b) == Flatten(a) + Flatten(b)
    decreases |b|
  {
    if b == [] {
      assert a + b == a;
    } else {
      var last := b[|b| - 1];
      var init := b[..|b| - 1];
      assert a + b == (a + init) + [last];
      FlattenAppend(a + init, last);
      FlattenConcat(a, init);
      FlattenAppend(init, last);
      assert b == init + [last];
    }
  }

  /**
   * Chunk `i` sits whole in the flattened walk at `Offset(chunks, i)`, after every earlier chunk and before
   * every later one: the painter's order of the serializer.
   */
  lemma {:induction false} ChunkPlacement(chunks: seq<seq<Element>>, i: nat)
    requires i < |chunks|
    ensures Flatten(chunks) == Flatten(chunks[..i]) + chunks[i] + Flatten(chunks[i + 1..])
    ensures Flatten(chunks)[Offset(chunks, i)..Offset(chunks, i) + |chunks[i]|] == chunks[i]
  {
    assert chunks == chunks[..i] + [chunks[i]] + chunks[i + 1..];
    FlattenConcat(chunks[..i] + [chunks[i]], chunks[i + 1..]);
    FlattenAppend(chunks[..i], chunks[i]);
  }

  /** Earlier chunks end no later than later chunks begin. */
  lemma {:induction false} ChunksInOrder(chunks: seq<seq<Element>>, i: nat, j: nat)
    requires i < j < |chunks|
    ensures Offset(chunks, i) + |chunks[i]| <= Offset(chunks, j)
  {
    assert chunks[..j] == chunks[..i] + [chunks[i]] + chunks[i + 1..j];
    FlattenConcat(chunks[..i] + [chunks[i]], chunks[i + 1..j]);
    FlattenAppend(chunks[..i], chunks[i]);
  }

  /**
   * The figure's output starts with the root tag and the white background and ends with the closing tag,
   * and diagram i's chunk comes whole after every earlier diagram's and before every later one's.
   */
  lemma FigureLayout(width: real, height: real, diagramChunks: seq<seq<Element>>, i: nat)
    requires i < |diagramChunks|
    ensures FigureElements(width, height, diagramChunks)
         == [SvgOpen(width, height), Rect(width, height, "white", false)]
            + Flatten(diagramChunks[..i]) + diagramChunks[i] + Flatten(diagramChunks[i + 1..])
            + [SvgClose]
  {
    ChunkPlacement(diagramChunks, i);
  }

  /** Without splines, the older per-entry drawing and the serializer's agree entry for entry. */
  lemma BasicAgreesWithObject(objs: seq<AxesObject>, h: real, trig: Pt -> Bearings, hypot: (real, real) -> real)
    requires forall k | 0 <= k < |objs| :: !objs[k].SplineObj?
    ensures BasicChunks(objs, h, trig) == ObjectChunks(objs, h, trig, hypot)
  {
  }

  /** The loop over a diagram's loose points (`diagram_to_svg` and the older `Diagram.to_svg`): one black circle each, in order. */
  method PointsToSvg(points: seq<LoosePoint>, h: real) returns (parts: seq<Element>)
    ensures parts == PointCircles(points, h)
  {
    parts := [];
    var i := 0;
    while i < |points|
      invariant 0 <= i <= |points|
      invariant parts == PointCircles(points[..i], h)
    {
      assert points[..i + 1][..i] == points[..i];
      parts := parts + [Circle(points[i].x, h - points[i].y, points[i].size / 2.0, "black")];
      i := i + 1;
    }
    assert points[..i] == points;
  }

  /** The loop over a diagram's loose vectors (`diagram_to_svg` and the older `Diagram.to_svg`): each vector's fragments, in order. */
  method VectorsToSvg(vectors: seq<Arrow>, h: real, trig: Pt -> Bearings) returns (parts: seq<Element>)
    ensures parts == Flatten(VectorChunks(vectors, h, trig))
  {
    parts := [];
    var i := 0;
    while i < |vectors|
      invariant 0 <= i <= |vectors|
      invariant parts == Flatten(VectorChunks(vectors[..i], h, trig))
    {
      var chunk := RenderVector(vectors[i], h, trig);
      assert vectors[..i + 1][..i] == vectors[..i];
      FlattenAppend(VectorChunks(vectors[..i], h, trig), chunk);
      parts := parts + chunk;
      i := i + 1;
    }
    assert vectors[..i] == vectors;
  }
}
