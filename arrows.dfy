/**
 * Rendering of a vector: a main line plus, for a non-zero direction, an optional gap-fill segment and a
 * swept two-wing arrowhead. Shared by the three Vector classes of the library (axis_objects/vector.py,
 * core/geometry2d.py and the older diagram.py), whose `to_svg` bodies are the same computation.
 */
module Arrows {
  import opened Base
  import opened Geometry
  import opened Styles
  import opened SvgElements

  /** What a vector's `to_svg` reads: start, direction, stroke colour and width, line style, arrowhead size. */
  datatype Arrow = Arrow(position: Pt, direction: Pt, color: string, thickness: real, lineStyle: string, arrowSize: real)

  /**
   * Unit vectors `(cos a, sin a)` for the angles the arrowhead is built from, where `t` is the angle of the
   * direction (`atan2(dy, dx)`): `wing1` at t - 20 degrees, `wing2` at t + 20 degrees, `ctrl1` at t - 10
   * degrees, `ctrl2` at t + 10 degrees and `along` at t. The trigonometry itself is not part of this model:
   * every renderer takes it as a parameter `trig` mapping a direction to its bearings.
   */
  datatype Bearings = Bearings(wing1: Pt, wing2: Pt, ctrl1: Pt, ctrl2: Pt, along: Pt)

  /** The vector's own dash pattern (8 on, 2 off) and the length of the gap-fill segment (one gap). */
  const VectorDash := "8,2"
  const DashGap := 2.0
  /** The arrowhead curves' control points sit at this fraction of the arrow size from the tip. */
  const ControlRatio := 0.7

  /** The tip of the vector. */
  function EndPoint(v: Arrow): (e: Pt)
    ensures Sub(e, v.position) == v.direction
  {
    Add(v.position, v.direction)
  }

  /** The stroke-dasharray of the main line. */
  function VectorDashArray(lineStyle: string): (r: string)
    ensures r == "none" <==> lineStyle != Dashed
    ensures r != "none" ==> r == VectorDash
  {
    if lineStyle == Dashed then VectorDash else "none"
  }

  /** The point at distance `len` from `e` back along the unit vector `u`. */
  function Back(e: Pt, len: real, u: Pt): Pt
  {
    Pt(e.x - len * u.x, e.y - len * u.y)
  }

  predicate IsZero(d: Pt) { d.x == 0.0 && d.y == 0.0 }

  /** The first point an emitted fragment is drawn from. */
  function StartOf(e: Element): Pt
  {
    match e
    case Line(from, _, _, _, _, _) => from
    case QuadPath(from, _, _, _, _) => from
    case _ => Origin
  }

  /** The main line from the flipped start to the flipped tip, dashed `8,2` when the vector is dashed. */
  function MainLine(v: Arrow, h: real): Element
  {
    Line(FlipY(v.position, h), FlipY(EndPoint(v), h), v.color, v.thickness, Some(VectorDashArray(v.lineStyle)), true)
  }

  /** The solid segment of one dash gap from the tip back along the direction. */
  function GapFill(v: Arrow, h: real, b: Bearings): Element
  {
    Line(FlipY(EndPoint(v), h), FlipY(Back(EndPoint(v), DashGap, b.along), h), v.color, v.thickness, None, false)
  }

  /** One curved wing from the tip to the point `arrowSize` back along `wing`, bent towards `ctrl`. */
  function Wing(v: Arrow, h: real, ctrl: Pt, wing: Pt): Element
  {
    QuadPath(FlipY(EndPoint(v), h), FlipY(Back(EndPoint(v), v.arrowSize * ControlRatio, ctrl), h),
             FlipY(Back(EndPoint(v), v.arrowSize, wing), h), v.color, v.thickness)
  }

  /**
   * The fragments `to_svg` emits for a vector in a container of height `h`, in order: the main line; then,
   * unless the direction is zero, the gap-fill line (dashed vectors only) and the two arrowhead wings.
   */
  function Fragments(v: Arrow, h: real, trig: Pt -> Bearings): seq<Element>
  {
    if IsZero(v.direction) then [MainLine(v, h)]
    else
      var b := trig(v.direction);
      [MainLine(v, h)]
      + (if v.lineStyle == Dashed then [GapFill(v, h, b)] else [])
      + [Wing(v, h, b.ctrl1, b.wing1), Wing(v, h, b.ctrl2, b.wing2)]
  }

  /**
   * The fragment structure: one fragment for a zero direction (no angle is taken of it), four for a dashed
   * vector and three for a solid one; the main line runs between the flipped start and the flipped tip;
   * every later fragment starts at the flipped tip, in the vector's colour and width; a dashed vector's
   * second fragment is the undashed gap fill and the last two are the arrowhead wings.
   */
  lemma FragmentsShape(v: Arrow, h: real, trig: Pt -> Bearings)
    ensures var r := Fragments(v, h, trig);
      && |r| == (if IsZero(v.direction) then 1 else if v.lineStyle == Dashed then 4 else 3)
      && r[0] == Line(FlipY(v.position, h), FlipY(Add(v.position, v.direction), h), v.color, v.thickness,
                      Some(if v.lineStyle == Dashed then VectorDash else "none"), true)
      && (forall i | 1 <= i < |r| :: StartOf(r[i]) == FlipY(Add(v.position, v.direction), h))
      && (forall i | 1 <= i < |r| :: (r[i].Line? || r[i].QuadPath?) && r[i].stroke == v.color && r[i].strokeWidth == v.thickness)
      && (|r| == 4 ==> r[1].Line? && r[1].dash.None?)
      && (|r| > 1 ==> r[|r| - 2].QuadPath? && r[|r| - 1].QuadPath?)
  {
  }

  /** Every point of the output is the flip of a point of the vector's own frame: the main line unflips to the vector. */
  lemma MainLineUnflips(v: Arrow, h: real, trig: Pt -> Bearings)
    ensures FlipY(Fragments(v, h, trig)[0].from, h) == v.position
    ensures Sub(FlipY(Fragments(v, h, trig)[0].to, h), FlipY(Fragments(v, h, trig)[0].from, h)) == v.direction
  {
    FlipYInvolution(v.position, h);
    FlipYInvolution(EndPoint(v), h);
  }

  /** The `to_svg` body: the main line, then the conditional appends. */
  method RenderVector(v: Arrow, h: real, trig: Pt -> Bearings) returns (parts: seq<Element>)
    ensures parts == Fragments(v, h, trig)
  {
    var startX, startY := v.position.x, v.position.y;
    var endX, endY := startX + v.direction.x, startY + v.direction.y;
    var svgStartY, svgEndY := h - startY, h - endY;
    var dashArray := if v.lineStyle == Dashed then VectorDash else "none";
    parts := [Line(Pt(startX, svgStartY), Pt(endX, svgEndY), v.color, v.thickness, Some(dashArray), true)];
    assert parts == [MainLine(v, h)];
    if v.direction.x != 0.0 || v.direction.y != 0.0 {
      var b := trig(v.direction);
      var arrow1X, arrow1Y := endX - v.arrowSize * b.wing1.x, endY - v.arrowSize * b.wing1.y;
      var arrow2X, arrow2Y := endX - v.arrowSize * b.wing2.x, endY - v.arrowSize * b.wing2.y;
      if v.lineStyle == Dashed {
        var gapEndX, gapEndY := endX - DashGap * b.along.x, endY - DashGap * b.along.y;
        parts := parts + [Line(Pt(endX, svgEndY), Pt(gapEndX, h - gapEndY), v.color, v.thickness, None, false)];
        assert parts == [MainLine(v, h), GapFill(v, h, b)];
      }
      assert parts == [MainLine(v, h)] + (if v.lineStyle == Dashed then [GapFill(v, h, b)] else []);
      var ctrl1X, ctrl1Y := endX - v.arrowSize * ControlRatio * b.ctrl1.x, endY - v.arrowSize * ControlRatio * b.ctrl1.y;
      var wing1 := QuadPath(Pt(endX, svgEndY), Pt(ctrl1X, h - ctrl1Y), Pt(arrow1X, h - arrow1Y), v.color, v.thickness);
      assert wing1 == Wing(v, h, b.ctrl1, b.wing1);
      parts := parts + [wing1];
      var ctrl2X, ctrl2Y := endX - v.arrowSize * ControlRatio * b.ctrl2.x, endY - v.arrowSize * ControlRatio * b.ctrl2.y;
      var wing2 := QuadPath(Pt(endX, svgEndY), Pt(ctrl2X, h - ctrl2Y), Pt(arrow2X, h - arrow2Y), v.color, v.thickness);
      assert wing2 == Wing(v, h, b.ctrl2, b.wing2);
      parts := parts + [wing2];
    }
  }
}
