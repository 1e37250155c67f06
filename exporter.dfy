/**
 * The serializer of exporters/svg.py: a walk over a figure's diagrams, each diagram's points, vectors and
 * axes, and each axes' entries, emitting the elements in insertion order at every level.
 */
module SvgExport {
  import opened Base
  import opened Geometry
  import opened SvgElements
  import opened Arrows
  import opened Hermite
  import opened Render
  import SceneAxes
  import SceneDiagram

  /** The chunk one entry of an axes contributes, as the branches of `axes_to_svg` build it. */
  method EntryToSvg(o: AxesObject, h: real, trig: Pt -> Bearings, hypot: (real, real) -> real) returns (chunk: seq<Element>)
    ensures chunk == ObjectElements(o, h, trig, hypot)
  {
    match o
    case PointObj(size, coords) =>
      chunk := [Circle(coords.x, h - coords.y, size / 2.0, "black")];
    case VectorObj(v) =>
      chunk := RenderVector(v, h, trig);
    case TickObj(start, end, color) =>
      chunk := [Line(Pt(start.x, h - start.y), Pt(end.x, h - end.y), color, 1.0, None, false)];
    case SplineObj(c) =>
      var cmds := PathCommands(c.points, c.tangents, h, hypot);
      chunk := [CubicPath(cmds, c.color, c.thickness, c.dashArray)];
  }

  /** The loop of `axes_to_svg` over the entries: one chunk per entry, in order. */
  method EntriesToSvg(objs: seq<AxesObject>, h: real, trig: Pt -> Bearings, hypot: (real, real) -> real) returns (parts: seq<Element>)
    ensures parts == Flatten(ObjectChunks(objs, h, trig, hypot))
  {
    parts := [];
    var i := 0;
    while i < |objs|
      invariant 0 <= i <= |objs|
      invariant parts == Flatten(ObjectChunks(objs[..i], h, trig, hypot))
    {
      var chunk := EntryToSvg(objs[i], h, trig, hypot);
      assert objs[..i + 1][..i] == objs[..i];
      assert ObjectChunks(objs[..i + 1], h, trig, hypot) == ObjectChunks(objs[..i], h, trig, hypot) + [chunk];
      FlattenAppend(ObjectChunks(objs[..i], h, trig, hypot), chunk);
      parts := parts + chunk;
      i := i + 1;
    }
    assert objs[..i] == objs;
  }

  /**
   * `axes_to_svg(axes, diagram_width, diagram_height)`: the x vector and the y vector in the axes' style,
   * then every entry in `objects` order.
   */
  method AxesToSvg(a: SceneAxes.Axes, h: real, trig: Pt -> Bearings, hypot: (real, real) -> real) returns (parts: seq<Element>)
    ensures parts == a.Rendered(h, trig, hypot)
  {
    var xPart := RenderVector(Restyled(a.xVector.AsArrow(), a.color, a.thickness, a.lineStyle), h, trig);
    var yPart := RenderVector(Restyled(a.yVector.AsArrow(), a.color, a.thickness, a.lineStyle), h, trig);
    var entries := EntriesToSvg(a.objects, h, trig, hypot);
    parts := xPart + yPart + entries;
  }

  /** One turn of the loop over a diagram's axes: axes i's drawing is appended to what the earlier axes gave. */
  method AppendAxes(axes: seq<SceneAxes.Axes>, i: nat, h: real, trig: Pt -> Bearings, hypot: (real, real) -> real,
                    done: seq<Element>) returns (parts: seq<Element>)
    requires i < |axes| && done == Flatten(SceneDiagram.AxesChunks(axes[..i], h, trig, hypot))
    ensures parts == Flatten(SceneDiagram.AxesChunks(axes[..i + 1], h, trig, hypot))
  {
    SceneDiagram.AxesChunksStep(axes, i, h, trig, hypot);
    var chunk := AxesToSvg(axes[i], h, trig, hypot);
    parts := done + chunk;
  }

  /** The loop of `diagram_to_svg` over the axes: each axes' output, in order. */
  method AxesListToSvg(axes: seq<SceneAxes.Axes>, h: real, trig: Pt -> Bearings, hypot: (real, real) -> real) returns (parts: seq<Element>)
    ensures parts == Flatten(SceneDiagram.AxesChunks(axes, h, trig, hypot))
  {
    parts := [];
    var i := 0;
    while i < |axes|
      invariant 0 <= i <= |axes|
      invariant parts == Flatten(SceneDiagram.AxesChunks(axes[..i], h, trig, hypot))
    {
      parts := AppendAxes(axes, i, h, trig, hypot, parts);
      i := i + 1;
    }
    assert axes[..i] == axes;
  }

  /**
   * `diagram_to_svg(diagram, figure)`: the group translated to the diagram's place (measured from the bottom
   * of the figure when there is one), the border, the points, the vectors, the axes, the closing tag.
   */
  method DiagramToSvg(d: SceneDiagram.Diagram, figureHeight: Option<real>, trig: Pt -> Bearings, hypot: (real, real) -> real)
    returns (parts: seq<Element>)
    ensures parts == d.Rendered(figureHeight, trig, hypot)
  {
    var yFromTop := if figureHeight.Some? then figureHeight.value - d.height - d.y else d.y;
    assert yFromTop == TranslateY(figureHeight, d.height, d.y);
    var fillValue := if d.fillEnabled then d.fill else "none";
    var circles := PointsToSvg(d.points, d.height);
    var arrows := VectorsToSvg(d.vectors, d.height, trig);
    var frames := AxesListToSvg(d.axes, d.height, trig, hypot);
    parts := [GroupOpen(d.x, yFromTop), Rect(d.width, d.height, fillValue, true)] + circles + arrows + frames + [GroupClose];
    assert parts == DiagramElements(d.x, yFromTop, d.width, d.height, fillValue, d.points,
                                    VectorChunks(d.vectors, d.height, trig), SceneDiagram.AxesChunks(d.axes, d.height, trig, hypot));
  }

  /** The diagrams' chunks in a figure of the given height. */
  function DiagramChunks(ds: seq<SceneDiagram.Diagram>, figureHeight: real, trig: Pt -> Bearings, hypot: (real, real) -> real): (r: seq<seq<Element>>)
    reads set d | d in ds, set d, a | d in ds && a in d.axes :: a,
          set d, a | d in ds && a in d.axes :: a.xVector, set d, a | d in ds && a in d.axes :: a.yVector
    ensures |r| == |ds|
  {
    if ds == [] then []
    else DiagramChunks(ds[..|ds| - 1], figureHeight, trig, hypot) + [ds[|ds| - 1].Rendered(Some(figureHeight), trig, hypot)]
  }

  /** The document `figure_to_svg` produces for a figure of the given size holding `ds`. */
  function FigureDocument(width: real, height: real, ds: seq<SceneDiagram.Diagram>, trig: Pt -> Bearings, hypot: (real, real) -> real): seq<Element>
    reads set d | d in ds, set d, a | d in ds && a in d.axes :: a,
          set d, a | d in ds && a in d.axes :: a.xVector, set d, a | d in ds && a in d.axes :: a.yVector
  {
    FigureElements(width, height, DiagramChunks(ds, height, trig, hypot))
  }

  /** One more diagram adds its output at the end of the walk. */
  lemma DiagramChunksStep(ds: seq<SceneDiagram.Diagram>, i: nat, height: real, trig: Pt -> Bearings, hypot: (real, real) -> real)
    requires i < |ds|
    ensures Flatten(DiagramChunks(ds[..i + 1], height, trig, hypot))
         == Flatten(DiagramChunks(ds[..i], height, trig, hypot)) + ds[i].Rendered(Some(height), trig, hypot)
  {
    assert ds[..i + 1][..i] == ds[..i] && ds[..i + 1][i] == ds[i];
    FlattenAppend(DiagramChunks(ds[..i], height, trig, hypot), ds[i].Rendered(Some(height), trig, hypot));
  }

  /** One turn of the loop of `figure_to_svg`: diagram i's output is appended to what the earlier diagrams gave. */
  method AppendDiagram(ds: seq<SceneDiagram.Diagram>, i: nat, height: real, trig: Pt -> Bearings, hypot: (real, real) -> real,
                       done: seq<Element>) returns (parts: seq<Element>)
    requires i < |ds| && done == Flatten(DiagramChunks(ds[..i], height, trig, hypot))
    ensures parts == Flatten(DiagramChunks(ds[..i + 1], height, trig, hypot))
  {
    DiagramChunksStep(ds, i, height, trig, hypot);
    var chunk := DiagramToSvg(ds[i], Some(height), trig, hypot);
    parts := done + chunk;
  }

  /** The loop of `figure_to_svg` over the diagrams: each diagram's output against the figure height, in order. */
  method DiagramsToSvg(ds: seq<SceneDiagram.Diagram>, height: real, trig: Pt -> Bearings, hypot: (real, real) -> real)
    returns (parts: seq<Element>)
    ensures parts == Flatten(DiagramChunks(ds, height, trig, hypot))
  {
    parts := [];
    var i := 0;
    while i < |ds|
      invariant 0 <= i <= |ds|
      invariant parts == Flatten(DiagramChunks(ds[..i], height, trig, hypot))
    {
      parts := AppendDiagram(ds, i, height, trig, hypot, parts);
      i := i + 1;
    }
    assert ds[..i] == ds;
  }

  /**
   * `figure_to_svg(figure)`: the root tag and the white background at the figure's size, each diagram in
   * insertion order placed against the figure's height, and the closing tag.
   */
  method FigureToSvg(width: real, height: real, ds: seq<SceneDiagram.Diagram>, trig: Pt -> Bearings, hypot: (real, real) -> real)
    returns (parts: seq<Element>)
    ensures parts == FigureDocument(width, height, ds, trig, hypot)
  {
    var body := DiagramsToSvg(ds, height, trig, hypot);
    parts := [SvgOpen(width, height), Rect(width, height, "white", false)] + body + [SvgClose];
  }

  /** Chunk i of the walk is diagram i's output. */
  lemma {:induction false} DiagramChunkAt(ds: seq<SceneDiagram.Diagram>, height: real, trig: Pt -> Bearings, hypot: (real, real) -> real, i: nat)
    requires i < |ds|
    ensures DiagramChunks(ds, height, trig, hypot)[i] == ds[i].Rendered(Some(height), trig, hypot)
    decreases |ds|
  {
    var init := ds[..|ds| - 1];
    if i < |ds| - 1 {
      DiagramChunkAt(init, height, trig, hypot, i);
      assert init[i] == ds[i];
    }
  }

  /**
   * A diagram's output in a figure of height H opens with its group translated to (x, H - height - y), so
   * that its bottom edge lies y above the bottom of the figure, and the border comes next.
   */
  lemma DiagramOpensTranslated(d: SceneDiagram.Diagram, height: real, trig: Pt -> Bearings, hypot: (real, real) -> real)
    ensures var out := d.Rendered(Some(height), trig, hypot);
      && |out| >= 3
      && out[0] == GroupOpen(d.x, height - d.height - d.y)
      && out[1] == Rect(d.width, d.height, FillValue(d.fill, d.fillEnabled), true)
      && out[|out| - 1] == GroupClose
  {
  }

  /**
   * In the exported document every diagram sits whole between the background and the closing tag, after
   * the diagrams added before it and before those added after it.
   */
  lemma DiagramPlacement(width: real, height: real, ds: seq<SceneDiagram.Diagram>, trig: Pt -> Bearings, hypot: (real, real) -> real, i: nat)
    requires i < |ds|
    ensures var chunks := DiagramChunks(ds, height, trig, hypot);
      FigureDocument(width, height, ds, trig, hypot)
      == [SvgOpen(width, height), Rect(width, height, "white", false)]
         + Flatten(chunks[..i]) + ds[i].Rendered(Some(height), trig, hypot) + Flatten(chunks[i + 1..]) + [SvgClose]
  {
    FigureLayout(width, height, DiagramChunks(ds, height, trig, hypot), i);
    DiagramChunkAt(ds, height, trig, hypot, i);
  }
}
