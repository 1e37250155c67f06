/**
 * The Axes container of scene/axes.py: a local frame at `position` inside a diagram, with two axis vectors
 * and an ordered list of entries, each resolved to diagram coordinates when it is added.
 */
module SceneAxes {
  import opened Base
  import opened Geometry
  import opened Styles
  import opened Primitives
  import opened SvgElements
  import opened Arrows
  import opened Hermite
  import opened Render
  import opened Ticks
  import Shapes

  /** What `add_object` may be handed: one of the three drawables, or anything else (named by its type). */
  datatype Drawable =
    | PointShape(p: Shapes.Point)
    | VectorShape(v: Shapes.Vector)
    | SplineShape(s: Shapes.Spline)
    | Unsupported(typeName: string)

  function UnsupportedMessage(typeName: string): string
  {
    "Unsupported object type: " + typeName + ". Supported types are Point, Vector, and Spline."
  }

  /** Anchors moved from the axes' frame into the diagram's: each shifted by the origin, in order. */
  function Shifted(points: seq<Pt>, origin: Pt): (r: seq<Pt>)
    ensures |r| == |points|
    ensures forall i | 0 <= i < |points| :: Sub(r[i], origin) == points[i]
  {
    seq(|points|, i requires 0 <= i < |points| => Add(origin, points[i]))
  }

  class Axes {
    var position: Pt
    var size: Size
    var objects: seq<AxesObject>
    var thickness: real
    var color: string
    var lineStyle: string
    var xVector: Shapes.Vector
    var yVector: Shapes.Vector

    /** The two axis vectors are distinct, start at the origin and run the length of each axis. */
    predicate Valid()
      reads this, xVector, yVector
    {
      && xVector != yVector
      && xVector.position == position && yVector.position == position
      && xVector.direction == Pt(size.width as real, 0.0) && yVector.direction == Pt(0.0, size.height as real)
    }

    /** The axis vectors carry the axes' colour, thickness and line style (what `_update_vector_styles` does). */
    predicate Synced()
      reads this, xVector, yVector
    {
      xVector.style == Style(color, thickness, lineStyle) && yVector.style == Style(color, thickness, lineStyle)
    }

    /** Everything but the entries. */
    function Settings(): (Pt, Size, real, string, string, Shapes.Vector, Shapes.Vector)
      reads this
    {
      (position, size, thickness, color, lineStyle, xVector, yVector)
    }

    /**
     * `Axes(position=None, size=None)`: at the origin and 10 by 10 unless given, gray, width 1, dashed,
     * no entries, and two fresh axis vectors styled like the axes.
     */
    constructor (position: Option<Pt> := None, size: Option<Size> := None)
      ensures Valid() && Synced()
      ensures this.position == position.GetOr(Origin) && this.size == size.GetOr(Size(10, 10))
      ensures objects == [] && thickness == 1.0 && color == "gray" && lineStyle == Dashed
      ensures fresh(xVector) && fresh(yVector) && xVector.arrowSize == 8.0 && yVector.arrowSize == 8.0
    {
      var origin := position.GetOr(Origin);
      var extent := size.GetOr(Size(10, 10));
      this.position, this.size := origin, extent;
      objects := [];
      thickness, color, lineStyle := 1.0, "gray", Dashed;
      var initial := Style("black", 1.0, Dashed);
      xVector := new Shapes.Vector(origin, Pt(extent.width as real, 0.0), initial);
      yVector := new Shapes.Vector(origin, Pt(0.0, extent.height as real), initial);
      new;
      UpdateVectorStyles();
    }

    /** `_update_vector_styles`: both axis vectors take the axes' colour, thickness and line style. */
    method UpdateVectorStyles()
      modifies xVector, yVector
      ensures Synced()
      ensures xVector.position == old(xVector.position) && xVector.direction == old(xVector.direction)
      ensures yVector.position == old(yVector.position) && yVector.direction == old(yVector.direction)
      ensures xVector.arrowSize == old(xVector.arrowSize) && yVector.arrowSize == old(yVector.arrowSize)
    {
      xVector.style := Style(color, thickness, lineStyle);
      yVector.style := Style(color, thickness, lineStyle);
    }

    /** The body of the `size(width, height)` setter: the axis vectors follow the new extent. */
    method Resize(width: int, height: int)
      requires Valid()
      modifies this, xVector, yVector
      ensures Valid() && size == Size(width, height)
      ensures position == old(position) && objects == old(objects) && xVector == old(xVector) && yVector == old(yVector)
      ensures color == old(color) && thickness == old(thickness) && lineStyle == old(lineStyle)
      ensures xVector.style == old(xVector.style) && yVector.style == old(yVector.style)
    {
      size := Size(width, height);
      xVector.direction := Pt(width as real, 0.0);
      yVector.direction := Pt(0.0, height as real);
    }

    /** The body of the `position(x, y)` setter: the axis vectors follow the new origin; entries stay where they were put. */
    method MoveTo(x: real, y: real)
      requires Valid()
      modifies this, xVector, yVector
      ensures Valid() && position == Pt(x, y)
      ensures size == old(size) && objects == old(objects) && xVector == old(xVector) && yVector == old(yVector)
      ensures color == old(color) && thickness == old(thickness) && lineStyle == old(lineStyle)
      ensures xVector.style == old(xVector.style) && yVector.style == old(yVector.style)
    {
      position := Pt(x, y);
      xVector.position := Pt(x, y);
      yVector.position := Pt(x, y);
    }

    /**
     * `style(line_style)`: "dashed" or "solid" becomes the axes' line style and the axis vectors follow;
     * anything else raises ValueError and changes nothing.
     */
    method SetStyle(lineStyle: string) returns (outcome: Outcome)
      requires Valid()
      modifies this, xVector, yVector
      ensures Valid()
      ensures !IsLineStyle(lineStyle) ==>
        outcome == Fail(ValueError(LineStyleMessage)) && Settings() == old(Settings()) && objects == old(objects)
        && xVector.style == old(xVector.style) && yVector.style == old(yVector.style)
      ensures IsLineStyle(lineStyle) ==>
        outcome == Pass && this.lineStyle == lineStyle && Synced()
        && position == old(position) && size == old(size) && objects == old(objects)
        && color == old(color) && thickness == old(thickness) && xVector == old(xVector) && yVector == old(yVector)
    {
      if !IsLineStyle(lineStyle) {
        return Fail(ValueError(LineStyleMessage));
      }
      this.lineStyle := lineStyle;
      UpdateVectorStyles();
      return Pass;
    }

    /** `add_point(size, coords)`: one point entry at position + coords, appended after the earlier ones. */
    method AddPoint(size: real, coords: Pt)
      modifies this
      ensures objects == old(objects) + [PointObj(size, Add(old(position), coords))]
      ensures Settings() == old(Settings())
    {
      var absolute := Pt(position.x + coords.x, position.y + coords.y);
      objects := objects + [PointObj(size, absolute)];
    }

    /** `addPoint(size, coords)`: `add_point` under its older name. */
    method AddPointCompat(size: real, coords: Pt)
      modifies this
      ensures objects == old(objects) + [PointObj(size, Add(old(position), coords))]
      ensures Settings() == old(Settings())
    {
      AddPoint(size, coords);
    }

    /**
     * `add_vector(relative_position, direction)`: a new black, width-1 vector at position + relative_position
     * with the given direction, made solid, appended and returned.
     */
    method AddVector(relative: Pt, direction: Pt) returns (v: Shapes.Vector)
      modifies this
      ensures fresh(v)
      ensures v.position == Add(position, relative) && v.direction == direction
      ensures v.style == Style("black", 1.0, Solid) && v.arrowSize == 8.0
      ensures objects == old(objects) + [VectorObj(v.AsArrow())]
      ensures Settings() == old(Settings())
    {
      var absolute := Pt(position.x + relative.x, position.y + relative.y);
      var made := Shapes.NewVector(Some(absolute), Some(direction), None, NoKeywords);
      v := made.value;
      v.style := v.style.(lineStyle := Solid);
      objects := objects + [VectorObj(v.AsArrow())];
    }

    /** `addLine(start, end)`: a vector from start with direction end - start, so it ends at end. */
    method AddLine(start: Pt, end: Pt) returns (v: Shapes.Vector)
      modifies this
      ensures fresh(v) && v.position == Add(position, start) && EndPoint(v.AsArrow()) == Add(position, end)
      ensures v.style == Style("black", 1.0, Solid)
      ensures objects == old(objects) + [VectorObj(v.AsArrow())]
      ensures Settings() == old(Settings())
    {
      var direction := Pt(end.x - start.x, end.y - start.y);
      v := AddVector(start, direction);
    }

    /**
     * `add_spline(spline)`: the spline's anchors are replaced by the same anchors shifted by the axes'
     * position, in the same order; tangents and style stay; the spline is appended and returned.
     */
    method AddSpline(s: Shapes.Spline) returns (r: Shapes.Spline)
      requires s.Valid()
      modifies this, s
      ensures r == s && s.Valid()
      ensures s.points == Shifted(old(s.points), position)
      ensures s.tangents == old(s.tangents) && s.style == old(s.style)
      ensures objects == old(objects) + [SplineObj(s.Curve())]
      ensures Settings() == old(Settings())
    {
      var anchors, origin := s.points, position;
      var absolute := seq(|anchors|, i requires 0 <= i < |anchors| => Pt(origin.x + anchors[i].x, origin.y + anchors[i].y));
      s.points := absolute;
      objects := objects + [SplineObj(s.Curve())];
      r := s;
    }

    /**
     * `add_object(obj)`: a new drawable of the same kind at position + the object's own coordinates,
     * appended and returned. A point is stored like `add_point` stores it; a vector gets the argument's style
     * (which is made solid, on the argument too); a spline gets the argument's tangents and style. Anything
     * else raises TypeError and changes nothing.
     */
    method AddObject(obj: Drawable) returns (r: Result<Drawable>)
      requires obj.SplineShape? ==> obj.s.Valid()
      modifies this, if obj.VectorShape? then {obj.v} else {}
      ensures Settings() == old(Settings())
      ensures obj.Unsupported? ==> r == Failure(TypeError(UnsupportedMessage(obj.typeName))) && objects == old(objects)
      ensures obj.PointShape? ==>
        && r.Success? && r.value.PointShape? && fresh(r.value.p)
        && r.value.p.size == obj.p.size && r.value.p.coords == Add(position, obj.p.coords) && r.value.p.style == obj.p.style
        && objects == old(objects) + [PointObj(obj.p.size, Add(position, obj.p.coords))]
      ensures obj.VectorShape? ==>
        && obj.v.style == old(obj.v.style).(lineStyle := Solid)
        && obj.v.position == old(obj.v.position) && obj.v.direction == old(obj.v.direction)
        && r.Success? && r.value.VectorShape? && fresh(r.value.v)
        && r.value.v.position == Add(position, obj.v.position) && r.value.v.direction == obj.v.direction
        && r.value.v.style == obj.v.style && r.value.v.arrowSize == 8.0
        && objects == old(objects) + [VectorObj(r.value.v.AsArrow())]
      ensures obj.SplineShape? ==>
        && r.Success? && r.value.SplineShape? && fresh(r.value.s) && r.value.s.Valid()
        && r.value.s.points == Shifted(obj.s.points, position) && r.value.s.tangents == obj.s.tangents
        && r.value.s.style == obj.s.style
        && objects == old(objects) + [SplineObj(r.value.s.Curve())]
    {
      match obj
      case PointShape(p) =>
        var absolute := Pt(position.x + p.coords.x, position.y + p.coords.y);
        var made := new Shapes.Point(p.size, absolute, p.style);
        objects := objects + [PointObj(p.size, absolute)];
        return Success(PointShape(made));
      case VectorShape(v) =>
        var absolute := Pt(position.x + v.position.x, position.y + v.position.y);
        var made := new Shapes.Vector(absolute, v.direction, v.style);
        v.style := v.style.(lineStyle := Solid);
        made.style := v.style;
        objects := objects + [VectorObj(made.AsArrow())];
        return Success(VectorShape(made));
      case SplineShape(s) =>
        var anchors, origin := s.points, position;
        var absolute := seq(|anchors|, i requires 0 <= i < |anchors| => Pt(origin.x + anchors[i].x, origin.y + anchors[i].y));
        var made := new Shapes.Spline(absolute, s.tangents, s.style);
        objects := objects + [SplineObj(made.Curve())];
        return Success(SplineShape(made));
      case Unsupported(typeName) =>
        return Failure(TypeError(UnsupportedMessage(typeName)));
    }

    /**
     * `add_ticks(spacing, length=5, color="black", orientation="both", placement="inside")`: the ticks of
     * `TicksFor` appended after the earlier entries, or the error with the entries as they were.
     */
    method AddTicks(spacing: int, length: real := 5.0, color: string := "black", orientation: string := "both",
                    placement: string := "inside")
      returns (outcome: Outcome)
      modifies this
      ensures var r := TicksFor(position, size.width, size.height, spacing, length, color, orientation, placement);
        && (r.Success? ==> outcome == Pass && objects == old(objects) + r.value)
        && (r.Failure? ==> outcome == Fail(r.error) && objects == old(objects))
      ensures Settings() == old(Settings())
    {
      objects, outcome := AppendTicks(objects, position, size.width, size.height, spacing, length, color, orientation, placement);
    }

    /** The axes as `axes_to_svg` draws them in a diagram of height `h`: the restyled axis vectors, then the entries. */
    function Rendered(h: real, trig: Pt -> Bearings, hypot: (real, real) -> real): seq<Element>
      reads this, xVector, yVector
    {
      AxesElements(Restyled(xVector.AsArrow(), color, thickness, lineStyle),
                   Restyled(yVector.AsArrow(), color, thickness, lineStyle),
                   ObjectChunks(objects, h, trig, hypot), h, trig)
    }
  }

  /**
   * `Vector.add_to(axes)` of core/geometry2d.py: the position is made relative to the axes and handed to
   * `add_vector`, which adds the origin back, so the appended entry starts where `v` does and points its
   * way. `add_to` returns `v` itself, which the caller already holds, so the model returns nothing.
   */
  method VectorAddTo(v: Shapes.Vector, axes: Axes)
    modifies axes
    ensures axes.objects == old(axes.objects) + [VectorObj(Arrow(v.position, v.direction, "black", 1.0, Solid, 8.0))]
    ensures axes.Settings() == old(axes.Settings())
  {
    var relative := Pt(v.position.x - axes.position.x, v.position.y - axes.position.y);
    var _ := axes.AddVector(relative, v.direction);
  }

  /** `Point.add_to(axes)` of core/geometry2d.py: `add_point` with the point's size and coordinates. */
  method PointAddTo(p: Shapes.Point, axes: Axes)
    modifies axes
    ensures axes.objects == old(axes.objects) + [PointObj(p.size, Add(axes.position, p.coords))]
    ensures axes.Settings() == old(axes.Settings())
  {
    axes.AddPoint(p.size, p.coords);
  }

  /** `Spline.add_to(axes)` of core/geometry2d.py: `add_spline` with the spline itself. */
  method SplineAddTo(s: Shapes.Spline, axes: Axes)
    requires s.Valid()
    modifies axes, s
    ensures s.Valid() && s.points == Shifted(old(s.points), axes.position) && s.tangents == old(s.tangents)
    ensures axes.objects == old(axes.objects) + [SplineObj(s.Curve())]
    ensures axes.Settings() == old(axes.Settings())
  {
    var _ := axes.AddSpline(s);
  }

  /** The serializer's point branch unpacks `_, size, coords = obj`: only a three-field entry gets through. */
  const NotEnoughValuesMessage := "not enough values to unpack (expected 3, got 2)"

  /** The number of fields of the entry each insertion path appends under the "point" tag. */
  const AddPointEntryFields := 3
  const AddObjectPointEntryFieldsAsWritten := 2

  /** The point branch of `axes_to_svg` on an entry with `fields` fields (tag included). */
  function UnpackPointEntry(fields: nat): (r: Outcome)
    ensures r.Pass? <==> fields == AddPointEntryFields
    ensures r.Fail? ==> r.error.ValueError?
    ensures fields < AddPointEntryFields ==> r.Fail? && "not enough values to unpack" <= r.error.message
    ensures fields > AddPointEntryFields ==> r.Fail? && "too many values to unpack" <= r.error.message
  {
    if fields == 3 then Pass
    else if fields > 3 then Fail(ValueError("too many values to unpack (expected 3)"))
    else if fields == 2 then Fail(ValueError(NotEnoughValuesMessage))
    else if fields == 1 then Fail(ValueError("not enough values to unpack (expected 3, got 1)"))
    else Fail(ValueError("not enough values to unpack (expected 3, got 0)"))
  }

  /**
   * A "point" entry of `objects` as the raw tuple the serializer unpacks: `add_object` stores the tag and
   * the new point object (two fields), `add_point` the tag, the size and the coordinates (three).
   */
  datatype RawPointEntry = RawPoint2(size: real, coords: Pt) | RawPoint3(size: real, coords: Pt)

  /** The number of fields of a raw entry, the tag included. */
  function RawFields(e: RawPointEntry): nat
  {
    if e.RawPoint2? then AddObjectPointEntryFieldsAsWritten else AddPointEntryFields
  }

  /** `add_object(point)` as written: the point shifted into the axes at `origin`, appended as a two-field entry. */
  function AddObjectPointAsWritten(entries: seq<RawPointEntry>, origin: Pt, size: real, coords: Pt): (r: seq<RawPointEntry>)
    ensures |r| == |entries| + 1 && r[..|entries|] == entries
    ensures RawFields(r[|entries|]) == 2 && Sub(r[|entries|].coords, origin) == coords && r[|entries|].size == size
  {
    entries + [RawPoint2(size, Add(origin, coords))]
  }

  /** `add_point(size, coords)` on raw entries: the shifted point appended as a three-field entry. */
  function AddPointRaw(entries: seq<RawPointEntry>, origin: Pt, size: real, coords: Pt): (r: seq<RawPointEntry>)
    ensures |r| == |entries| + 1 && r[..|entries|] == entries
    ensures RawFields(r[|entries|]) == 3 && Sub(r[|entries|].coords, origin) == coords && r[|entries|].size == size
  {
    entries + [RawPoint3(size, Add(origin, coords))]
  }

  /**
   * The point branch of `axes_to_svg` over raw entries in order: each entry is unpacked into three names
   * and drawn; the first entry that does not hold three fields stops the export with the unpack error.
   */
  function ExportPointEntries(entries: seq<RawPointEntry>, h: real): (r: Result<seq<Element>>)
    ensures r.Success? <==> forall k | 0 <= k < |entries| :: RawFields(entries[k]) == 3
    ensures r.Success? ==> |r.value| == |entries|
  {
    if entries == [] then Success([])
    else
      var last := entries[|entries| - 1];
      match ExportPointEntries(entries[..|entries| - 1], h)
      case Failure(e) => Failure(e)
      case Success(parts) =>
        match UnpackPointEntry(RawFields(last))
        case Pass => Success(parts + [PointCircle(last.coords, last.size, h)])
        case Fail(e) => Failure(e)
  }

  /**
   * As written, a point added through `add_object` stops the export of its axes, with the "not enough
   * values" error when every earlier entry was well formed; a point added by `add_point` is drawn after the
   * earlier entries at its shifted place.
   */
  lemma {:induction false} AddObjectPointBreaksExport(entries: seq<RawPointEntry>, origin: Pt, size: real, coords: Pt, h: real)
    ensures ExportPointEntries(AddObjectPointAsWritten(entries, origin, size, coords), h).Failure?
    ensures ExportPointEntries(entries, h).Success? ==>
      ExportPointEntries(AddObjectPointAsWritten(entries, origin, size, coords), h) == Failure(ValueError(NotEnoughValuesMessage))
    ensures ExportPointEntries(entries, h).Success? ==>
      ExportPointEntries(AddPointRaw(entries, origin, size, coords), h)
        == Success(ExportPointEntries(entries, h).value + [PointCircle(Add(origin, coords), size, h)])
  {
    var bad := AddObjectPointAsWritten(entries, origin, size, coords);
    var good := AddPointRaw(entries, origin, size, coords);
    assert bad[..|bad| - 1] == entries && good[..|good| - 1] == entries;
  }
}
