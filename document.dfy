/**
 * The older object model of diagram.py and figure.py: a Figure holding Diagrams, each holding loose points,
 * loose vectors and Axes, where every class draws itself with its own `to_svg`. A diagram keeps a
 * reference to the figure it was added to and is placed against that figure's height at drawing time.
 */
module Document {
  import opened Base
  import opened Geometry
  import opened Styles
  import opened SvgElements
  import opened Arrows
  import opened Render
  import opened Ticks
  import AxisObjects

  /**
   * `Vector(position=None, direction=None)` of diagram.py. That class has the same fields, setters and
   * `to_svg` as the one of axis_objects/vector.py and differs only in its default colour, gray.
   */
  method NewVector(position: Option<Pt>, direction: Option<Pt>) returns (v: AxisObjects.Vector)
    ensures fresh(v)
    ensures v.position == position.GetOr(Origin) && v.direction == direction.GetOr(Pt(10.0, 10.0))
    ensures v.color == "gray" && v.thickness == 1.0 && v.lineStyle == Dashed && v.arrowSize == 8.0
  {
    v := new AxisObjects.Vector(position, direction);
    v.SetColor("gray");
  }

  /** What `Diagram.add_axes` is handed: an existing Axes, or a position and an optional size to build one from. */
  datatype AxesArg = Existing(axes: Axes) | Build(position: Option<Pt>, size: Option<Size>)

  /** What `Diagram.add_vector` is handed: an existing vector, or a position and a direction to build one from. */
  datatype VectorArg = GivenVector(v: AxisObjects.Vector) | At(position: Option<Pt>, direction: Option<Pt>)

  /** No spline entries: the older Axes has no way to add one, and its `to_svg` has no branch for one. */
  predicate NoSplines(objects: seq<AxesObject>)
  {
    forall k | 0 <= k < |objects| :: !objects[k].SplineObj?
  }

  /** The Axes of diagram.py. */
  class Axes {
    var position: Pt
    var size: Size
    var objects: seq<AxesObject>
    var thickness: real
    var color: string
    var lineStyle: string
    var xVector: AxisObjects.Vector
    var yVector: AxisObjects.Vector

    /** Two distinct axis vectors from the origin along each axis, and entries of the three kinds it can add. */
    predicate Valid()
      reads this, xVector, yVector
    {
      && xVector != yVector
      && xVector.position == position && yVector.position == position
      && xVector.direction == Pt(size.width as real, 0.0) && yVector.direction == Pt(0.0, size.height as real)
      && NoSplines(objects)
    }

    /** The axis vectors carry the axes' colour, thickness and line style. */
    predicate Synced()
      reads this, xVector, yVector
    {
      && xVector.color == color && xVector.thickness == thickness && xVector.lineStyle == lineStyle
      && yVector.color == color && yVector.thickness == thickness && yVector.lineStyle == lineStyle
    }

    /** Everything but the entries. */
    function Settings(): (Pt, Size, real, string, string, AxisObjects.Vector, AxisObjects.Vector)
      reads this
    {
      (position, size, thickness, color, lineStyle, xVector, yVector)
    }

    /**
     * `Axes(position=None, size=None)`: at the origin and 10 by 10 unless given, gray, width 1, dashed,
     * no entries, and two fresh axis vectors styled like the axes.
     */
    constructor (position: Option<Pt> := None, size: Option<Size> := None)
      ensures Valid() && Synced()
      ensures this.position == position.GetOr(Origin) && this.size == size.GetOr(Size(10, 10))
      ensures objects == [] && thickness == 1.0 && color == "gray" && lineStyle == Dashed
      ensures fresh(xVector) && fresh(yVector) && xVector.arrowSize == 8.0 && yVector.arrowSize == 8.0
    {
      var origin := position.GetOr(Origin);
      var extent := size.GetOr(Size(10, 10));
      this.position, this.size := origin, extent;
      objects := [];
      thickness, color, lineStyle := 1.0, "gray", Dashed;
      var xv := NewVector(Some(origin), Some(Pt(extent.width as real, 0.0)));
      var yv := NewVector(Some(origin), Some(Pt(0.0, extent.height as real)));
      xVector, yVector := xv, yv;
      new;
      UpdateVectorStyles();
    }

    /** `_update_vector_styles`: both axis vectors take the axes' colour, thickness and line style. */
    method UpdateVectorStyles()
      modifies xVector, yVector
      ensures Synced()
      ensures xVector.position == old(xVector.position) && xVector.direction == old(xVector.direction)
      ensures yVector.position == old(yVector.position) && yVector.direction == old(yVector.direction)
      ensures xVector.arrowSize == old(xVector.arrowSize) && yVector.arrowSize == old(yVector.arrowSize)
    {
      xVector.color, xVector.thickness, xVector.lineStyle := color, thickness, lineStyle;
      yVector.color, yVector.thickness, yVector.lineStyle := color, thickness, lineStyle;
    }

    /** The body of the `size(width, height)` setter: the axis vectors follow the new extent. */
    method Resize(width: int, height: int)
      requires Valid()
      modifies this, xVector, yVector
      ensures Valid() && size == Size(width, height)
      ensures position == old(position) && objects == old(objects) && xVector == old(xVector) && yVector == old(yVector)
      ensures color == old(color) && thickness == old(thickness) && lineStyle == old(lineStyle)
      ensures xVector.AsArrow().(direction := Origin) == old(xVector.AsArrow()).(direction := Origin)
      ensures yVector.AsArrow().(direction := Origin) == old(yVector.AsArrow()).(direction := Origin)
    {
      size := Size(width, height);
      xVector.direction := Pt(width as real, 0.0);
      yVector.direction := Pt(0.0, height as real);
    }

    /** The body of the `position(x, y)` setter: the axis vectors follow the new origin; entries stay where they were put. */
    method MoveTo(x: real, y: real)
      requires Valid()
      modifies this, xVector, yVector
      ensures Valid() && position == Pt(x, y)
      ensures size == old(size) && objects == old(objects) && xVector == old(xVector) && yVector == old(yVector)
      ensures color == old(color) && thickness == old(thickness) && lineStyle == old(lineStyle)
      ensures xVector.AsArrow().(position := Origin) == old(xVector.AsArrow()).(position := Origin)
      ensures yVector.AsArrow().(position := Origin) == old(yVector.AsArrow()).(position := Origin)
    {
      position := Pt(x, y);
      xVector.position := Pt(x, y);
      yVector.position := Pt(x, y);
    }

    /**
     * `style(line_style)`: "dashed" or "solid" becomes the axes' line style and the axis vectors follow;
     * anything else raises ValueError and changes nothing.
     */
    method SetStyle(lineStyle: string) returns (outcome: Outcome)
      requires Valid()
      modifies this, xVector, yVector
      ensures Valid()
      ensures !IsLineStyle(lineStyle) ==>
        outcome == Fail(ValueError(LineStyleMessage)) && Settings() == old(Settings()) && objects == old(objects)
        && xVector.AsArrow() == old(xVector.AsArrow()) && yVector.AsArrow() == old(yVector.AsArrow())
      ensures IsLineStyle(lineStyle) ==>
        outcome == Pass && this.lineStyle == lineStyle && Synced()
        && position == old(position) && size == old(size) && objects == old(objects)
        && color == old(color) && thickness == old(thickness) && xVector == old(xVector) && yVector == old(yVector)
    {
      if !IsLineStyle(lineStyle) {
        return Fail(ValueError(LineStyleMessage));
      }
      this.lineStyle := lineStyle;
      UpdateVectorStyles();
      return Pass;
    }

    /** `add_point(size, coords)`: one point entry at position + coords, appended after the earlier ones. */
    method AddPoint(size: real, coords: Pt)
      requires Valid()
      modifies this
      ensures Valid()
      ensures objects == old(objects) + [PointObj(size, Add(old(position), coords))]
      ensures Settings() == old(Settings())
    {
      var absolute := Pt(position.x + coords.x, position.y + coords.y);
      objects := objects + [PointObj(size, absolute)];
    }

    /**
     * `add_vector(relative_position, direction)`: a new gray, width-1 vector at position + relative_position
     * with the given direction, made solid, appended and returned.
     */
    method AddVector(relative: Pt, direction: Pt) returns (v: AxisObjects.Vector)
      requires Valid()
      modifies this
      ensures Valid()
      ensures fresh(v)
      ensures v.position == Add(position, relative) && v.direction == direction
      ensures v.color == "gray" && v.thickness == 1.0 && v.lineStyle == Solid && v.arrowSize == 8.0
      ensures objects == old(objects) + [VectorObj(v.AsArrow())]
      ensures Settings() == old(Settings())
    {
      var absolute := Pt(position.x + relative.x, position.y + relative.y);
      v := NewVector(Some(absolute), Some(direction));
      v.lineStyle := Solid;
      objects := objects + [VectorObj(v.AsArrow())];
    }

    /**
     * `add_ticks(spacing, length=5, color="black", orientation="both", placement="inside")`: the ticks of
     * `TicksFor` appended after the earlier entries, or the error with the entries as they were.
     */
    method AddTicks(spacing: int, length: real := 5.0, color: string := "black", orientation: string := "both",
                    placement: string := "inside")
      returns (outcome: Outcome)
      requires Valid()
      modifies this
      ensures Valid()
      ensures var r := TicksFor(position, size.width, size.height, spacing, length, color, orientation, placement);
        && (r.Success? ==> outcome == Pass && objects == old(objects) + r.value)
        && (r.Failure? ==> outcome == Fail(r.error) && objects == old(objects))
      ensures Settings() == old(Settings())
    {
      OnlyTicks(position, size.width, size.height, spacing, length, color, orientation, placement);
      objects, outcome := AppendTicks(objects, position, size.width, size.height, spacing, length, color, orientation, placement);
    }

    /**
     * The axes as `to_svg` draws them in a diagram of height `h`: the axis vectors in the axes' style (which
     * `to_svg` first copies onto them), then the entries in `objects` order.
     */
    function Rendered(h: real, trig: Pt -> Bearings): seq<Element>
      reads this, xVector, yVector
    {
      AxesElements(Restyled(xVector.AsArrow(), color, thickness, lineStyle),
                   Restyled(yVector.AsArrow(), color, thickness, lineStyle),
                   BasicChunks(objects, h, trig), h, trig)
    }

    /** `to_svg(diagram_width, diagram_height)`: the two axis vectors, then one chunk per entry. */
    method ToSvg(h: real, trig: Pt -> Bearings) returns (parts: seq<Element>)
      ensures parts == Rendered(h, trig)
    {
      var xPart := RenderVector(Restyled(xVector.AsArrow(), color, thickness, lineStyle), h, trig);
      var yPart := RenderVector(Restyled(yVector.AsArrow(), color, thickness, lineStyle), h, trig);
      var entries := EntriesToSvg(objects, h, trig);
      parts := xPart + yPart + entries;
    }
  }

  /** The chunk one entry contributes, as the branches of `Axes.to_svg` build it; a spline entry draws nothing. */
  method EntryToSvg(o: AxesObject, h: real, trig: Pt -> Bearings) returns (chunk: seq<Element>)
    ensures chunk == BasicElements(o, h, trig)
  {
    match o
    case PointObj(size, coords) =>
      chunk := [Circle(coords.x, h - coords.y, size / 2.0, "black")];
    case VectorObj(v) =>
      chunk := RenderVector(v, h, trig);
    case TickObj(start, end, color) =>
      chunk := [Line(Pt(start.x, h - start.y), Pt(end.x, h - end.y), color, 1.0, None, false)];
    case SplineObj(_) =>
      chunk := [];
  }

  /** The loop of `Axes.to_svg` over the entries: one chunk per entry, in order. */
  method EntriesToSvg(objs: seq<AxesObject>, h: real, trig: Pt -> Bearings) returns (parts: seq<Element>)
    ensures parts == Flatten(BasicChunks(objs, h, trig))
  {
    parts := [];
    var i := 0;
    while i < |objs|
      invariant 0 <= i <= |objs|
      invariant parts == Flatten(BasicChunks(objs[..i], h, trig))
    {
      var chunk := EntryToSvg(objs[i], h, trig);
      assert objs[..i + 1][..i] == objs[..i];
      FlattenAppend(BasicChunks(objs[..i], h, trig), chunk);
      parts := parts + chunk;
      i := i + 1;
    }
    assert objs[..i] == objs;
  }

  /**
   * For the entries the older Axes can hold, its `to_svg` and the serializer of exporters/svg.py draw the
   * same elements: the two renderers agree.
   */
  lemma RenderersAgree(objs: seq<AxesObject>, h: real, trig: Pt -> Bearings, hypot: (real, real) -> real)
    requires NoSplines(objs)
    ensures Flatten(BasicChunks(objs, h, trig)) == Flatten(ObjectChunks(objs, h, trig, hypot))
  {
    BasicAgreesWithObject(objs, h, trig, hypot);
  }


  /** `Axes.add_to(diagram)`: `diagram.add_axes(axes)`. */
  method AxesAddTo(a: Axes, d: Diagram)
    modifies d
    ensures d.axes == old(d.axes) + [a]
    ensures d.Settings() == old(d.Settings())
  {
    var _ := d.AddAxes(Existing(a));
  }

  /** The Diagram of diagram.py. */
  class Diagram {
    var width: real
    var height: real
    var x: real
    var y: real
    var figure: Figure?
    var axes: seq<Axes>
    var fill: string
    var fillEnabled: bool
    var points: seq<LoosePoint>
    var vectors: seq<Arrow>

    /** Everything but the three lists and the fill. */
    function Placement(): (real, real, real, real, Figure?)
      reads this
    {
      (width, height, x, y, figure)
    }

    /** Everything but the three lists. */
    function Settings(): (real, real, real, real, Figure?, string, bool)
      reads this
    {
      (width, height, x, y, figure, fill, fillEnabled)
    }

    /** `Diagram(width=200, height=200, x=0, y=0, figure=None)`: unfilled and empty. */
    constructor (width: real := 200.0, height: real := 200.0, x: real := 0.0, y: real := 0.0, figure: Figure? := null)
      ensures Placement() == (width, height, x, y, figure)
      ensures axes == [] && points == [] && vectors == [] && fill == "none" && !fillEnabled
    {
      this.width, this.height, this.x, this.y, this.figure := width, height, x, y, figure;
      axes, points, vectors := [], [], [];
      fill, fillEnabled := "none", false;
    }

    /** `size(width, height)`. */
    method Resize(width: real, height: real)
      modifies this
      ensures this.width == width && this.height == height
      ensures x == old(x) && y == old(y) && figure == old(figure) && fill == old(fill) && fillEnabled == old(fillEnabled)
      ensures axes == old(axes) && points == old(points) && vectors == old(vectors)
    {
      this.width, this.height := width, height;
    }

    /** `position(x, y)`: `y` is the distance from the bottom of the figure. */
    method MoveTo(x: real, y: real)
      modifies this
      ensures this.x == x && this.y == y
      ensures width == old(width) && height == old(height) && figure == old(figure) && fill == old(fill)
      ensures fillEnabled == old(fillEnabled) && axes == old(axes) && points == old(points) && vectors == old(vectors)
    {
      this.x, this.y := x, y;
    }

    /** `fill(color=None)`: no colour switches fill off, a colour switches it on with that colour. */
    method Fill(color: Option<string>)
      modifies this
      ensures color.None? ==> !fillEnabled && fill == "none"
      ensures color.Some? ==> fillEnabled && fill == color.value
      ensures FillValue(fill, fillEnabled) == color.GetOr("none")
      ensures Placement() == old(Placement()) && axes == old(axes) && points == old(points) && vectors == old(vectors)
    {
      if color.None? {
        fillEnabled, fill := false, "none";
      } else {
        fillEnabled, fill := true, color.value;
      }
    }

    /** `add_point(*args)`: the point appended last, or the error with the points as they were. */
    method AddPoint(args: PointArgs) returns (outcome: Outcome)
      modifies this
      ensures PointFrom(args).Success? ==> outcome == Pass && points == old(points) + [PointFrom(args).value]
      ensures PointFrom(args).Failure? ==> outcome == Fail(PointFrom(args).error) && points == old(points)
      ensures Settings() == old(Settings()) && axes == old(axes) && vectors == old(vectors)
    {
      var r := PointFrom(args);
      if r.Failure? {
        return Fail(r.error);
      }
      points := points + [r.value];
      return Pass;
    }

    /** `add_axes(axes_or_position, size=None)`: the given Axes, or a new one built from the arguments, appended and returned. */
    method AddAxes(arg: AxesArg) returns (a: Axes)
      modifies this
      ensures axes == old(axes) + [a]
      ensures arg.Existing? ==> a == arg.axes
      ensures arg.Build? ==>
        fresh(a) && a.Valid() && a.Synced() && a.objects == []
        && a.position == arg.position.GetOr(Origin) && a.size == arg.size.GetOr(Size(10, 10))
      ensures Settings() == old(Settings()) && points == old(points) && vectors == old(vectors)
    {
      if arg.Existing? {
        a := arg.axes;
      } else {
        a := new Axes(arg.position, arg.size);
      }
      axes := axes + [a];
    }

    /**
     * `add_vector(position=None, direction=None)`: the given vector, or a new gray width-1 one, made solid,
     * appended and returned.
     */
    method AddVector(arg: VectorArg) returns (v: AxisObjects.Vector)
      modifies this, if arg.GivenVector? then {arg.v} else {}
      ensures arg.GivenVector? ==>
        v == arg.v && v.AsArrow() == old(arg.v.AsArrow()).(lineStyle := Solid)
      ensures arg.At? ==>
        fresh(v) && v.position == arg.position.GetOr(Origin) && v.direction == arg.direction.GetOr(Pt(10.0, 10.0))
        && v.color == "gray" && v.thickness == 1.0 && v.lineStyle == Solid && v.arrowSize == 8.0
      ensures vectors == old(vectors) + [v.AsArrow()]
      ensures Settings() == old(Settings()) && axes == old(axes) && points == old(points)
    {
      if arg.GivenVector? {
        v := arg.v;
      } else {
        v := NewVector(arg.position, arg.direction);
      }
      v.lineStyle := Solid;
      vectors := vectors + [v.AsArrow()];
    }

    /**
     * The diagram as `to_svg` draws it: the group translated to (x, H - height - y) when it has a figure of
     * height H and to (x, y) otherwise, the border, the points, the vectors, the axes, the closing tag.
     */
    function Rendered(trig: Pt -> Bearings): seq<Element>
      reads this, figure, set a | a in axes, set a | a in axes :: a.xVector, set a | a in axes :: a.yVector
    {
      DiagramElements(x, TranslateY(if figure != null then Some(figure.height) else None, height, y), width, height, FillValue(fill, fillEnabled),
                      points, VectorChunks(vectors, height, trig), AxesChunks(axes, height, trig))
    }

    /** `to_svg()`: the translated group, the border, then the points, the vectors and the axes, each in order. */
    method ToSvg(trig: Pt -> Bearings) returns (parts: seq<Element>)
      ensures parts == Rendered(trig)
    {
      var figureHeight := if figure != null then Some(figure.height) else None;
      var yFromTop := if figure != null then figure.height - height - y else y;
      assert yFromTop == TranslateY(figureHeight, height, y);
      var fillValue := if fillEnabled then fill else "none";
      var circles := PointsToSvg(points, height);
      var arrows := VectorsToSvg(vectors, height, trig);
      var frames := AxesListToSvg(axes, height, trig);
      parts := [GroupOpen(x, yFromTop), Rect(width, height, fillValue, true)] + circles + arrows + frames + [GroupClose];
      assert parts == DiagramElements(x, yFromTop, width, height, fillValue, points,
                                      VectorChunks(vectors, height, trig), AxesChunks(axes, height, trig));
    }
  }

  /** One chunk per axes, in insertion order. */
  function AxesChunks(axes: seq<Axes>, h: real, trig: Pt -> Bearings): (r: seq<seq<Element>>)
    reads set a | a in axes, set a | a in axes :: a.xVector, set a | a in axes :: a.yVector
    ensures |r| == |axes|
  {
    if axes == [] then []
    else AxesChunks(axes[..|axes| - 1], h, trig) + [axes[|axes| - 1].Rendered(h, trig)]
  }

  /** One more axes adds its drawing at the end of the walk. */
  lemma AxesChunksStep(axes: seq<Axes>, i: nat, h: real, trig: Pt -> Bearings)
    requires i < |axes|
    ensures Flatten(AxesChunks(axes[..i + 1], h, trig)) == Flatten(AxesChunks(axes[..i], h, trig)) + axes[i].Rendered(h, trig)
  {
    assert axes[..i + 1][..i] == axes[..i] && axes[..i + 1][i] == axes[i];
    FlattenAppend(AxesChunks(axes[..i], h, trig), axes[i].Rendered(h, trig));
  }

  /** One turn of the loop over a diagram's axes: axes i's `to_svg` is appended to what the earlier axes gave. */
  method AppendAxes(axes: seq<Axes>, i: nat, h: real, trig: Pt -> Bearings, done: seq<Element>) returns (parts: seq<Element>)
    requires i < |axes| && done == Flatten(AxesChunks(axes[..i], h, trig))
    ensures parts == Flatten(AxesChunks(axes[..i + 1], h, trig))
  {
    AxesChunksStep(axes, i, h, trig);
    var chunk := axes[i].ToSvg(h, trig);
    parts := done + chunk;
  }

  /** The loop of `Diagram.to_svg` over the axes: each axes' `to_svg`, in order. */
  method AxesListToSvg(axes: seq<Axes>, h: real, trig: Pt -> Bearings) returns (parts: seq<Element>)
    ensures parts == Flatten(AxesChunks(axes, h, trig))
  {
    parts := [];
    var i := 0;
    while i < |axes|
      invariant 0 <= i <= |axes|
      invariant parts == Flatten(AxesChunks(axes[..i], h, trig))
    {
      parts := AppendAxes(axes, i, h, trig, parts);
      i := i + 1;
    }
    assert axes[..i] == axes;
  }

  /** The Figure of figure.py. */
  class Figure {
    var width: real
    var height: real
    var diagrams: seq<Diagram>

    /** `Figure()`: 800 by 600 and empty. */
    constructor ()
      ensures width == 800.0 && height == 600.0 && diagrams == []
    {
      width, height, diagrams := 800.0, 600.0, [];
    }

    /**
     * `size(dimensions)`: a two-value list becomes the width and the height; any other length fails to unpack
     * with ValueError before anything is assigned.
     */
    method Resize(dimensions: seq<real>) returns (outcome: Outcome)
      modifies this
      ensures |dimensions| == 2 ==> outcome == Pass && width == dimensions[0] && height == dimensions[1]
      ensures |dimensions| != 2 ==>
        outcome == Fail(PairUnpackError(|dimensions|)) && width == old(width) && height == old(height)
      ensures diagrams == old(diagrams)
    {
      if |dimensions| != 2 {
        return Fail(PairUnpackError(|dimensions|));
      }
      width, height := dimensions[0], dimensions[1];
      return Pass;
    }

    /** `addDiagram(diagram)`: the diagram now refers to this figure, and is drawn after the earlier ones. */
    method AddDiagram(d: Diagram)
      modifies this, d
      ensures d.figure == this
      ensures diagrams == old(diagrams) + [d]
      ensures width == old(width) && height == old(height)
      ensures d.width == old(d.width) && d.height == old(d.height) && d.x == old(d.x) && d.y == old(d.y)
      ensures d.axes == old(d.axes) && d.points == old(d.points) && d.vectors == old(d.vectors)
      ensures d.fill == old(d.fill) && d.fillEnabled == old(d.fillEnabled)
    {
      d.figure := this;
      diagrams := diagrams + [d];
    }

    /** The figure as `to_svg` draws it: the root tag, the white background, each diagram in order, the closing tag. */
    function Rendered(trig: Pt -> Bearings): seq<Element>
      reads this, set d | d in diagrams, set d | d in diagrams :: d.figure,
            set d, a | d in diagrams && a in d.axes :: a,
            set d, a | d in diagrams && a in d.axes :: a.xVector, set d, a | d in diagrams && a in d.axes :: a.yVector
    {
      FigureElements(width, height, DiagramChunks(diagrams, trig))
    }

    /** `to_svg()`: the root tag and background at the figure's size, each diagram's `to_svg` in order, the closing tag. */
    method ToSvg(trig: Pt -> Bearings) returns (parts: seq<Element>)
      ensures parts == Rendered(trig)
    {
      var body := DiagramsToSvg(diagrams, trig);
      parts := [SvgOpen(width, height), Rect(width, height, "white", false)] + body + [SvgClose];
    }
  }

  /** One chunk per diagram, in insertion order. */
  function DiagramChunks(ds: seq<Diagram>, trig: Pt -> Bearings): (r: seq<seq<Element>>)
    reads set d | d in ds, set d | d in ds :: d.figure, set d, a | d in ds && a in d.axes :: a,
          set d, a | d in ds && a in d.axes :: a.xVector, set d, a | d in ds && a in d.axes :: a.yVector
    ensures |r| == |ds|
  {
    if ds == [] then []
    else DiagramChunks(ds[..|ds| - 1], trig) + [ds[|ds| - 1].Rendered(trig)]
  }

  /** One more diagram adds its output at the end of the walk. */
  lemma DiagramChunksStep(ds: seq<Diagram>, i: nat, trig: Pt -> Bearings)
    requires i < |ds|
    ensures Flatten(DiagramChunks(ds[..i + 1], trig)) == Flatten(DiagramChunks(ds[..i], trig)) + ds[i].Rendered(trig)
  {
    assert ds[..i + 1][..i] == ds[..i] && ds[..i + 1][i] == ds[i];
    FlattenAppend(DiagramChunks(ds[..i], trig), ds[i].Rendered(trig));
  }

  /** One turn of the loop of `Figure.to_svg`: diagram i's `to_svg` appended to the output so far. */
  method AppendDiagram(ds: seq<Diagram>, i: nat, trig: Pt -> Bearings, done: seq<Element>) returns (parts: seq<Element>)
    requires i < |ds| && done == Flatten(DiagramChunks(ds[..i], trig))
    ensures parts == Flatten(DiagramChunks(ds[..i + 1], trig))
  {
    DiagramChunksStep(ds, i, trig);
    var chunk := ds[i].ToSvg(trig);
    parts := done + chunk;
  }

  /** The loop of `Figure.to_svg` over the diagrams: each diagram's `to_svg`, in order. */
  method DiagramsToSvg(ds: seq<Diagram>, trig: Pt -> Bearings) returns (parts: seq<Element>)
    ensures parts == Flatten(DiagramChunks(ds, trig))
  {
    parts := [];
    var i := 0;
    while i < |ds|
      invariant 0 <= i <= |ds|
      invariant parts == Flatten(DiagramChunks(ds[..i], trig))
    {
      parts := AppendDiagram(ds, i, trig, parts);
      i := i + 1;
    }
    assert ds[..i] == ds;
  }

  /** Chunk i of the walk is diagram i's output. */
  lemma {:induction false} DiagramChunkAt(ds: seq<Diagram>, trig: Pt -> Bearings, i: nat)
    requires i < |ds|
    ensures DiagramChunks(ds, trig)[i] == ds[i].Rendered(trig)
    decreases |ds|
  {
    var init := ds[..|ds| - 1];
    if i < |ds| - 1 {
      DiagramChunkAt(init, trig, i);
      assert init[i] == ds[i];
    }
  }

  /**
   * A diagram of a figure whose figure reference is that figure is drawn, in the figure's output, between
   * the diagrams added before and after it, inside a group translated to (x, H - height - y) for the
   * figure's current height H: its bottom edge lies y above the bottom of the figure.
   */
  lemma PlacedInFigure(f: Figure, trig: Pt -> Bearings, i: nat)
    requires i < |f.diagrams| && f.diagrams[i].figure == f
    ensures var d, chunks := f.diagrams[i], DiagramChunks(f.diagrams, trig);
      && f.Rendered(trig)
         == [SvgOpen(f.width, f.height), Rect(f.width, f.height, "white", false)]
            + Flatten(chunks[..i]) + d.Rendered(trig) + Flatten(chunks[i + 1..]) + [SvgClose]
      && d.Rendered(trig)[0] == GroupOpen(d.x, f.height - d.height - d.y)
  {
    FigureLayout(f.width, f.height, DiagramChunks(f.diagrams, trig), i);
    DiagramChunkAt(f.diagrams, trig, i);
  }

  /** A diagram without a figure is translated by its own (x, y). */
  lemma UnplacedDiagram(d: Diagram, trig: Pt -> Bearings)
    requires d.figure == null
    ensures d.Rendered(trig)[0] == GroupOpen(d.x, d.y)
  {
  }
}
