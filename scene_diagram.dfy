/**
 * The Diagram container of scene/diagram.py: a framed rectangle placed in a figure, holding loose points,
 * loose vectors and axes, each list kept in insertion order.
 */
module SceneDiagram {
  import opened Base
  import opened Geometry
  import opened Styles
  import opened Primitives
  import opened SvgElements
  import opened Arrows
  import opened Render
  import Shapes
  import SceneAxes

  /** What `add_axes` is handed: an existing Axes, or a position and an optional size to build one from. */
  datatype AxesArg = Existing(axes: SceneAxes.Axes) | Build(position: Option<Pt>, size: Option<Size>)

  /** What `add_vector` is handed: an existing vector, or a position and a direction to build one from. */
  datatype VectorArg = GivenVector(v: Shapes.Vector) | At(position: Option<Pt>, direction: Option<Pt>)

  class Diagram {
    var width: real
    var height: real
    var x: real
    var y: real
    var axes: seq<SceneAxes.Axes>
    var fill: string
    var fillEnabled: bool
    var points: seq<LoosePoint>
    var vectors: seq<Arrow>

    /** `Diagram(width=200, height=200, x=0, y=0)`: unfilled and empty. */
    constructor (width: real := 200.0, height: real := 200.0, x: real := 0.0, y: real := 0.0)
      ensures this.width == width && this.height == height && this.x == x && this.y == y
      ensures axes == [] && points == [] && vectors == [] && fill == "none" && !fillEnabled
    {
      this.width, this.height, this.x, this.y := width, height, x, y;
      axes, points, vectors := [], [], [];
      fill, fillEnabled := "none", false;
    }

    /** `size(width, height)`. */
    method Resize(width: real, height: real)
      modifies this
      ensures this.width == width && this.height == height
      ensures x == old(x) && y == old(y) && axes == old(axes) && points == old(points) && vectors == old(vectors)
      ensures fill == old(fill) && fillEnabled == old(fillEnabled)
    {
      this.width, this.height := width, height;
    }

    /** `position(x, y)`: `y` is the distance from the bottom of the figure. */
    method MoveTo(x: real, y: real)
      modifies this
      ensures this.x == x && this.y == y
      ensures width == old(width) && height == old(height) && axes == old(axes) && points == old(points)
      ensures vectors == old(vectors) && fill == old(fill) && fillEnabled == old(fillEnabled)
    {
      this.x, this.y := x, y;
    }

    /** `fill(color=None)`: no colour switches fill off, a colour switches it on with that colour. */
    method Fill(color: Option<string>)
      modifies this
      ensures color.None? ==> !fillEnabled && fill == "none"
      ensures color.Some? ==> fillEnabled && fill == color.value
      ensures FillValue(fill, fillEnabled) == color.GetOr("none")
      ensures width == old(width) && height == old(height) && x == old(x) && y == old(y)
      ensures axes == old(axes) && points == old(points) && vectors == old(vectors)
    {
      if color.None? {
        fillEnabled, fill := false, "none";
      } else {
        fillEnabled, fill := true, color.value;
      }
    }

    /** `add_point(*args)`: the point appended last, or the error with the points as they were. */
    method AddPoint(args: PointArgs) returns (outcome: Outcome)
      modifies this
      ensures PointFrom(args).Success? ==> outcome == Pass && points == old(points) + [PointFrom(args).value]
      ensures PointFrom(args).Failure? ==> outcome == Fail(PointFrom(args).error) && points == old(points)
      ensures width == old(width) && height == old(height) && x == old(x) && y == old(y)
      ensures axes == old(axes) && vectors == old(vectors) && fill == old(fill) && fillEnabled == old(fillEnabled)
    {
      var point: LoosePoint;
      match args {
        case Flat(px, py, size) =>
          point := LoosePoint(px, py, size);
        case Nested(coords, size) =>
          if |coords| != 2 {
            return Fail(PointFrom(args).error);
          }
          point := LoosePoint(coords[0], coords[1], size);
        case Malformed =>
          return Fail(TypeError(PointArgsMessage));
      }
      points := points + [point];
      return Pass;
    }

    /** `addPoint(size, coords)`: `add_point(coords[0], coords[1], size)`. */
    method AddPointCompat(size: real, coords: Pt)
      modifies this
      ensures points == old(points) + [LoosePoint(coords.x, coords.y, size)]
      ensures width == old(width) && height == old(height) && x == old(x) && y == old(y)
      ensures axes == old(axes) && vectors == old(vectors) && fill == old(fill) && fillEnabled == old(fillEnabled)
    {
      var _ := AddPoint(Flat(coords.x, coords.y, size));
    }

    /** `add_axes(axes_or_position, size=None)`: the given Axes, or a new one built from the arguments, appended and returned. */
    method AddAxes(arg: AxesArg) returns (a: SceneAxes.Axes)
      modifies this
      ensures axes == old(axes) + [a]
      ensures arg.Existing? ==> a == arg.axes
      ensures arg.Build? ==>
        fresh(a) && a.Valid() && a.Synced() && a.objects == []
        && a.position == arg.position.GetOr(Origin) && a.size == arg.size.GetOr(Size(10, 10))
      ensures width == old(width) && height == old(height) && x == old(x) && y == old(y)
      ensures points == old(points) && vectors == old(vectors) && fill == old(fill) && fillEnabled == old(fillEnabled)
    {
      if arg.Existing? {
        a := arg.axes;
      } else {
        a := new SceneAxes.Axes(arg.position, arg.size);
      }
      axes := axes + [a];
    }

    /**
     * `add_vector(position=None, direction=None)`: the given vector, or a new black width-1 one, made solid,
     * appended and returned.
     */
    method AddVector(arg: VectorArg) returns (v: Shapes.Vector)
      modifies this, if arg.GivenVector? then {arg.v} else {}
      ensures arg.GivenVector? ==>
        v == arg.v && v.style == old(arg.v.style).(lineStyle := Solid)
        && v.position == old(arg.v.position) && v.direction == old(arg.v.direction) && v.arrowSize == old(arg.v.arrowSize)
      ensures arg.At? ==>
        fresh(v) && v.position == arg.position.GetOr(Origin) && v.direction == arg.direction.GetOr(Pt(10.0, 10.0))
        && v.style == Style("black", 1.0, Solid) && v.arrowSize == 8.0
      ensures vectors == old(vectors) + [v.AsArrow()]
      ensures width == old(width) && height == old(height) && x == old(x) && y == old(y)
      ensures axes == old(axes) && points == old(points) && fill == old(fill) && fillEnabled == old(fillEnabled)
    {
      if arg.GivenVector? {
        v := arg.v;
      } else {
        var made := Shapes.NewVector(arg.position, arg.direction, None, NoKeywords);
        v := made.value;
      }
      v.style := v.style.(lineStyle := Solid);
      vectors := vectors + [v.AsArrow()];
    }

    /** `addLine(start, end)`: a solid vector from start with direction end - start, so it ends at end. */
    method AddLine(start: Pt, end: Pt) returns (v: Shapes.Vector)
      modifies this
      ensures fresh(v) && v.position == start && EndPoint(v.AsArrow()) == end && v.style.lineStyle == Solid
      ensures vectors == old(vectors) + [v.AsArrow()]
      ensures width == old(width) && height == old(height) && x == old(x) && y == old(y)
      ensures axes == old(axes) && points == old(points) && fill == old(fill) && fillEnabled == old(fillEnabled)
    {
      v := AddVector(At(Some(start), Some(Pt(end.x - start.x, end.y - start.y))));
    }

    /**
     * The diagram as `diagram_to_svg` draws it, in a figure of height `figureHeight` when there is one: the
     * translated group, the border, the points, the vectors, the axes, the closing tag.
     */
    function Rendered(figureHeight: Option<real>, trig: Pt -> Bearings, hypot: (real, real) -> real): seq<Element>
      reads this, set a | a in axes, set a | a in axes :: a.xVector, set a | a in axes :: a.yVector
    {
      DiagramElements(x, TranslateY(figureHeight, height, y), width, height, FillValue(fill, fillEnabled),
                      points, VectorChunks(vectors, height, trig), AxesChunks(axes, height, trig, hypot))
    }
  }

  /** `Axes.add_to(diagram)` of scene/axes.py: `diagram.add_axes(axes)`. */
  method AxesAddTo(a: SceneAxes.Axes, d: Diagram)
    modifies d
    ensures d.axes == old(d.axes) + [a]
    ensures d.width == old(d.width) && d.height == old(d.height) && d.x == old(d.x) && d.y == old(d.y)
    ensures d.points == old(d.points) && d.vectors == old(d.vectors) && d.fill == old(d.fill) && d.fillEnabled == old(d.fillEnabled)
  {
    var _ := d.AddAxes(Existing(a));
  }

  /** One chunk per axes, in insertion order. */
  function AxesChunks(axes: seq<SceneAxes.Axes>, h: real, trig: Pt -> Bearings, hypot: (real, real) -> real): (r: seq<seq<Element>>)
    reads set a | a in axes, set a | a in axes :: a.xVector, set a | a in axes :: a.yVector
    ensures |r| == |axes|
  {
    if axes == [] then []
    else AxesChunks(axes[..|axes| - 1], h, trig, hypot) + [axes[|axes| - 1].Rendered(h, trig, hypot)]
  }

  /** Chunk i is axes i's drawing. */
  lemma {:induction false} AxesChunkAt(axes: seq<SceneAxes.Axes>, h: real, trig: Pt -> Bearings, hypot: (real, real) -> real, i: nat)
    requires i < |axes|
    ensures AxesChunks(axes, h, trig, hypot)[i] == axes[i].Rendered(h, trig, hypot)
    decreases |axes|
  {
    var init := axes[..|axes| - 1];
    if i < |axes| - 1 {
      AxesChunkAt(init, h, trig, hypot, i);
      assert init[i] == axes[i];
    }
  }

  /** One more axes adds its drawing at the end of the walk. */
  lemma AxesChunksStep(axes: seq<SceneAxes.Axes>, i: nat, h: real, trig: Pt -> Bearings, hypot: (real, real) -> real)
    requires i < |axes|
    ensures Flatten(AxesChunks(axes[..i + 1], h, trig, hypot))
         == Flatten(AxesChunks(axes[..i], h, trig, hypot)) + axes[i].Rendered(h, trig, hypot)
  {
    assert axes[..i + 1][..i] == axes[..i] && axes[..i + 1][i] == axes[i];
    FlattenAppend(AxesChunks(axes[..i], h, trig, hypot), axes[i].Rendered(h, trig, hypot));
  }
}
