/**
 * The stand-alone axis objects of axis_objects/vector.py and axis_objects/spline.py: the same drawing as the
 * drawable primitives, with the style kept in plain fields instead of a `Style`.
 */
module AxisObjects {
  import opened Base
  import opened Geometry
  import opened Styles
  import opened SvgElements
  import opened Arrows
  import opened Hermite
  import opened Render

  /** A vector of axis_objects/vector.py. */
  class Vector {
    var position: Pt
    var direction: Pt
    var color: string
    var thickness: real
    var lineStyle: string
    var arrowSize: real

    /** A missing position is the origin, a missing direction (10, 10); black, width 1, dashed, arrowhead 8. */
    constructor (position: Option<Pt> := None, direction: Option<Pt> := None)
      ensures this.position == position.GetOr(Origin) && this.direction == direction.GetOr(Pt(10.0, 10.0))
      ensures color == "black" && thickness == 1.0 && lineStyle == Dashed && arrowSize == 8.0
    {
      this.position := position.GetOr(Origin);
      this.direction := direction.GetOr(Pt(10.0, 10.0));
      color, thickness, lineStyle, arrowSize := "black", 1.0, Dashed, 8.0;
    }

    /** What `to_svg` reads of the vector. */
    function AsArrow(): (a: Arrow)
      reads this
      ensures a.position == position && a.direction == direction && a.arrowSize == arrowSize
      ensures a.color == color && a.thickness == thickness && a.lineStyle == lineStyle
    {
      Arrow(position, direction, color, thickness, lineStyle, arrowSize)
    }

    /** `style(line_style)`: only "dashed" and "solid" are accepted; a refused value changes nothing. */
    method SetLineStyle(lineStyle: string) returns (outcome: Outcome)
      modifies this
      ensures IsLineStyle(lineStyle) ==> outcome == Pass && this.lineStyle == lineStyle
      ensures !IsLineStyle(lineStyle) ==> outcome == Fail(ValueError(LineStyleMessage)) && this.lineStyle == old(this.lineStyle)
      ensures position == old(position) && direction == old(direction) && color == old(color)
      ensures thickness == old(thickness) && arrowSize == old(arrowSize)
    {
      if !IsLineStyle(lineStyle) {
        return Fail(ValueError(LineStyleMessage));
      }
      this.lineStyle := lineStyle;
      return Pass;
    }

    /** The body of the `color(c)` setter. */
    method SetColor(color: string)
      modifies this
      ensures this.color == color
      ensures position == old(position) && direction == old(direction) && thickness == old(thickness)
      ensures lineStyle == old(lineStyle) && arrowSize == old(arrowSize)
    {
      this.color := color;
    }

    /** The body of the `thickness(t)` setter. */
    method SetThickness(thickness: real)
      modifies this
      ensures this.thickness == thickness
      ensures position == old(position) && direction == old(direction) && color == old(color)
      ensures lineStyle == old(lineStyle) && arrowSize == old(arrowSize)
    {
      this.thickness := thickness;
    }

    /** `to_svg`: the fragments of the vector in a container of height `h`. */
    method ToSvg(h: real, trig: Pt -> Bearings) returns (parts: seq<Element>)
      ensures parts == Fragments(AsArrow(), h, trig)
    {
      parts := RenderVector(AsArrow(), h, trig);
    }
  }

  /** A spline of axis_objects/spline.py. */
  class Spline {
    var points: seq<Pt>
    var tangents: seq<Pt>
    var color: string
    var thickness: real
    var lineStyle: string

    /** What the constructor guarantees and the setters keep. */
    predicate Valid()
      reads this
    {
      ValidAnchors(points, tangents)
    }

    constructor (points: seq<Pt>, tangents: seq<Pt>, color: string, thickness: real, lineStyle: string)
      requires ValidAnchors(points, tangents)
      ensures Valid()
      ensures this.points == points && this.tangents == tangents
      ensures this.color == color && this.thickness == thickness && this.lineStyle == lineStyle
    {
      this.points, this.tangents := points, tangents;
      this.color, this.thickness, this.lineStyle := color, thickness, lineStyle;
    }

    /** What `to_svg` reads: "none" as the dash array for a solid line, "5,3" otherwise. */
    function Curve(): (c: Curve)
      reads this
      requires Valid()
      ensures c.points == points && c.tangents == tangents && c.color == color && c.thickness == thickness
      ensures c.dashArray == DashPattern(lineStyle)
    {
      SplineData(points, tangents, color, thickness, DashPattern(lineStyle))
    }

    /** `style(line_style)`: only "solid" and "dashed" are accepted; a refused value changes nothing. */
    method SetLineStyle(lineStyle: string) returns (outcome: Outcome)
      requires Valid()
      modifies this
      ensures Valid()
      ensures IsLineStyle(lineStyle) ==> outcome == Pass && this.lineStyle == lineStyle
      ensures !IsLineStyle(lineStyle) ==> outcome == Fail(ValueError(SplineLineStyleMessage)) && this.lineStyle == old(this.lineStyle)
      ensures points == old(points) && tangents == old(tangents) && color == old(color) && thickness == old(thickness)
    {
      if !IsLineStyle(lineStyle) {
        return Fail(ValueError(SplineLineStyleMessage));
      }
      this.lineStyle := lineStyle;
      return Pass;
    }

    /** `set_color(c)`. */
    method SetColor(color: string)
      requires Valid()
      modifies this
      ensures Valid()
      ensures this.color == color
      ensures points == old(points) && tangents == old(tangents) && thickness == old(thickness) && lineStyle == old(lineStyle)
    {
      this.color := color;
    }

    /** `set_thickness(t)`. */
    method SetThickness(thickness: real)
      requires Valid()
      modifies this
      ensures Valid()
      ensures this.thickness == thickness
      ensures points == old(points) && tangents == old(tangents) && color == old(color) && lineStyle == old(lineStyle)
    {
      this.thickness := thickness;
    }

    /** `to_svg`: one path holding all spans, in a container of height `h`. */
    method ToSvg(h: real, hypot: (real, real) -> real) returns (e: Element)
      requires Valid()
      ensures e == SplinePath(Curve(), h, hypot)
    {
      var cmds := PathCommands(points, tangents, h, hypot);
      var dash := if lineStyle == Solid then "none" else "5,3";
      e := CubicPath(cmds, color, thickness, dash);
    }
  }

  /**
   * `Spline(points, tangents, color="black", thickness=1, line_style="solid")`: fewer than two anchors, then
   * a tangent count that differs, raise ValueError; otherwise the spline keeps copies of both lists.
   */
  method NewSpline(points: seq<Pt>, tangents: seq<Pt>, color: string := "black", thickness: real := 1.0,
                   lineStyle: string := Solid)
    returns (r: Result<Spline>)
    ensures CheckAnchors(points, tangents).Some? ==> r == Failure(CheckAnchors(points, tangents).value)
    ensures CheckAnchors(points, tangents).None? ==>
      r.Success? && fresh(r.value) && r.value.Valid()
      && r.value.points == points && r.value.tangents == tangents
      && r.value.color == color && r.value.thickness == thickness && r.value.lineStyle == lineStyle
  {
    var check := CheckAnchors(points, tangents);
    if check.Some? {
      return Failure(check.value);
    }
    var s := new Spline(points, tangents, color, thickness, lineStyle);
    return Success(s);
  }
}
