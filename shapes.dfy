/**
 * The drawable primitives of core/geometry2d.py: a point, a vector and a Hermite spline, each carrying a
 * `Style` chosen once at construction by the drawable base rule.
 */
module Shapes {
  import opened Base
  import opened Geometry
  import opened Styles
  import opened Primitives
  import opened SvgElements
  import opened Arrows
  import opened Hermite
  import opened Render

  /** A drawable point: its size, its coordinates and its style. */
  class Point {
    var size: real
    var coords: Pt
    var style: Style

    constructor (size: real, coords: Pt, style: Style)
      ensures this.size == size && this.coords == coords && this.style == style
    {
      this.size, this.coords, this.style := size, coords, style;
    }

    /** `Point.to_svg`: a circle of radius size / 2 in the style's colour, centred on the flipped coordinates. */
    function Circle(h: real): (e: Element)
      reads this
      ensures e.Circle? && FlipY(Pt(e.cx, e.cy), h) == coords && 2.0 * e.r == size && e.fill == style.color
    {
      Element.Circle(coords.x, h - coords.y, size / 2.0, style.color)
    }
  }

  /** `Point(size, coords, style=..., **style_kw)`: the drawable base rule decides the style or the error. */
  method NewPoint(size: real, coords: Pt, style: Option<Style>, kw: StyleKeywords) returns (r: Result<Point>)
    ensures ResolveStyle(style, kw).Failure? ==> r == Failure(ResolveStyle(style, kw).error)
    ensures ResolveStyle(style, kw).Success? ==>
      r.Success? && fresh(r.value) && r.value.size == size && r.value.coords == coords
      && r.value.style == ResolveStyle(style, kw).value
  {
    var s := ResolveStyle(style, kw);
    if s.Failure? {
      return Failure(s.error);
    }
    var p := new Point(size, coords, s.value);
    return Success(p);
  }

  /** The keywords `Vector.__init__` hands to the drawable base: a dashed line and thickness 1 unless given. */
  function VectorKeywords(kw: StyleKeywords): (r: StyleKeywords)
    ensures r.color == kw.color && r.thickness.Some? && r.lineStyle.Some? && !r.IsEmpty()
  {
    StyleKeywords(kw.color, Some(kw.thickness.GetOr(1.0)), Some(kw.lineStyle.GetOr(Dashed)))
  }

  /** The keywords `Spline.__init__` hands to the drawable base: thickness 1 unless given. */
  function SplineKeywords(kw: StyleKeywords): (r: StyleKeywords)
    ensures r.color == kw.color && r.lineStyle == kw.lineStyle && r.thickness.Some? && !r.IsEmpty()
  {
    StyleKeywords(kw.color, Some(kw.thickness.GetOr(1.0)), kw.lineStyle)
  }

  /** A vector's style as `Vector.__init__` computes it: the defaulted keywords go to the base rule whatever was passed. */
  function VectorStyleAsWritten(style: Option<Style>, kw: StyleKeywords): Result<Style>
  {
    ResolveStyle(style, VectorKeywords(kw))
  }

  /** A spline's style as `Spline.__init__` computes it. */
  function SplineStyleAsWritten(style: Option<Style>, kw: StyleKeywords): Result<Style>
  {
    ResolveStyle(style, SplineKeywords(kw))
  }

  /** Because the defaults are always added as keywords, no style object ever reaches a vector or a spline. */
  lemma StyleObjectAlwaysRejected(s: Style, kw: StyleKeywords)
    ensures VectorStyleAsWritten(Some(s), kw) == Failure(ValueError(BothStyleFormsMessage))
    ensures SplineStyleAsWritten(Some(s), kw) == Failure(ValueError(BothStyleFormsMessage))
  {
  }

  /** A vector's style with the defaults applied only when no style object is given. */
  function VectorStyle(style: Option<Style>, kw: StyleKeywords): Result<Style>
  {
    if style.Some? then ResolveStyle(style, kw) else ResolveStyle(None, VectorKeywords(kw))
  }

  /** A spline's style with the defaults applied only when no style object is given. */
  function SplineStyle(style: Option<Style>, kw: StyleKeywords): Result<Style>
  {
    if style.Some? then ResolveStyle(style, kw) else ResolveStyle(None, SplineKeywords(kw))
  }

  /**
   * The corrected rule keeps the drawable base contract: a style object alone is used as is, a style object
   * with keywords is refused, and without a style object the result is what the constructors compute now,
   * a dashed line of width 1 for vectors and a solid one of width 1 for splines unless told otherwise.
   */
  lemma CorrectedStyleRule(style: Option<Style>, kw: StyleKeywords)
    ensures style.Some? && kw.IsEmpty() ==> VectorStyle(style, kw) == Success(style.value) && SplineStyle(style, kw) == Success(style.value)
    ensures style.Some? && !kw.IsEmpty() ==>
      VectorStyle(style, kw) == Failure(ValueError(BothStyleFormsMessage))
      && SplineStyle(style, kw) == Failure(ValueError(BothStyleFormsMessage))
    ensures style.None? ==> VectorStyle(style, kw) == VectorStyleAsWritten(style, kw) && SplineStyle(style, kw) == SplineStyleAsWritten(style, kw)
    ensures style.None? ==>
      && VectorStyle(style, kw).Success? && SplineStyle(style, kw).Success?
      && VectorStyle(style, kw).value.lineStyle == kw.lineStyle.GetOr(Dashed)
      && SplineStyle(style, kw).value.lineStyle == kw.lineStyle.GetOr(Solid)
      && VectorStyle(style, kw).value.thickness == kw.thickness.GetOr(1.0)
      && SplineStyle(style, kw).value.thickness == kw.thickness.GetOr(1.0)
  {
  }

  /** A drawable vector: start, direction and magnitude, style and arrowhead size. */
  class Vector {
    var position: Pt
    var direction: Pt
    var style: Style
    var arrowSize: real

    constructor (position: Pt, direction: Pt, style: Style)
      ensures this.position == position && this.direction == direction && this.style == style
      ensures arrowSize == 8.0
    {
      this.position, this.direction, this.style := position, direction, style;
      arrowSize := 8.0;
    }

    /** What `to_svg` reads of the vector. */
    function AsArrow(): (a: Arrow)
      reads this
      ensures a.position == position && a.direction == direction && a.arrowSize == arrowSize
      ensures a.color == style.color && a.thickness == style.thickness && a.lineStyle == style.lineStyle
    {
      Arrow(position, direction, style.color, style.thickness, style.lineStyle, arrowSize)
    }

    /** The body of the `style(line_style)` setter: only "dashed" and "solid" are accepted. */
    method SetLineStyle(lineStyle: string) returns (outcome: Outcome)
      modifies this
      ensures IsLineStyle(lineStyle) ==> outcome == Pass && style == old(style).(lineStyle := lineStyle)
      ensures !IsLineStyle(lineStyle) ==> outcome == Fail(ValueError(LineStyleMessage)) && style == old(style)
      ensures position == old(position) && direction == old(direction) && arrowSize == old(arrowSize)
    {
      if !IsLineStyle(lineStyle) {
        return Fail(ValueError(LineStyleMessage));
      }
      style := style.(lineStyle := lineStyle);
      return Pass;
    }

    /** `color(c)`. */
    method SetColor(color: string)
      modifies this
      ensures style == old(style).(color := color)
      ensures position == old(position) && direction == old(direction) && arrowSize == old(arrowSize)
    {
      style := style.(color := color);
    }

    /** `thickness(t)`. */
    method SetThickness(thickness: real)
      modifies this
      ensures style == old(style).(thickness := thickness)
      ensures position == old(position) && direction == old(direction) && arrowSize == old(arrowSize)
    {
      style := style.(thickness := thickness);
    }

    /** `to_svg`: the fragments of the vector in a container of height `h`. */
    method ToSvg(h: real, trig: Pt -> Bearings) returns (parts: seq<Element>)
      ensures parts == Fragments(AsArrow(), h, trig)
    {
      parts := RenderVector(AsArrow(), h, trig);
    }
  }

  /**
   * `Vector(position, direction, style=..., **style_kw)`: a missing position is the origin, a missing direction
   * (10, 10), and the style is resolved from the defaulted keywords, so a style object is always refused.
   */
  method NewVector(position: Option<Pt>, direction: Option<Pt>, style: Option<Style>, kw: StyleKeywords)
    returns (r: Result<Vector>)
    ensures VectorStyleAsWritten(style, kw).Failure? ==> r == Failure(VectorStyleAsWritten(style, kw).error)
    ensures VectorStyleAsWritten(style, kw).Success? ==>
      r.Success? && fresh(r.value)
      && r.value.position == position.GetOr(Origin) && r.value.direction == direction.GetOr(Pt(10.0, 10.0))
      && r.value.style == VectorStyleAsWritten(style, kw).value && r.value.arrowSize == 8.0
  {
    var s := VectorStyleAsWritten(style, kw);
    if s.Failure? {
      return Failure(s.error);
    }
    var v := new Vector(position.GetOr(Origin), direction.GetOr(Pt(10.0, 10.0)), s.value);
    return Success(v);
  }

  /** A drawable Hermite spline: anchors, one tangent per anchor, and a style. */
  class Spline {
    var points: seq<Pt>
    var tangents: seq<Pt>
    var style: Style

    /** What the constructor guarantees and every later update keeps. */
    predicate Valid()
      reads this
    {
      ValidAnchors(points, tangents)
    }

    constructor (points: seq<Pt>, tangents: seq<Pt>, style: Style)
      requires ValidAnchors(points, tangents)
      ensures Valid()
      ensures this.points == points && this.tangents == tangents && this.style == style
    {
      this.points, this.tangents, this.style := points, tangents, style;
    }

    /** What `to_svg` reads of the spline, with the style's dash array. */
    function Curve(): (c: Curve)
      reads this
      requires Valid()
      ensures c.points == points && c.tangents == tangents
      ensures c.color == style.color && c.thickness == style.thickness && c.dashArray == DashArray(style)
    {
      SplineData(points, tangents, style.color, style.thickness, DashArray(style))
    }

    /** The body of the `style(line_style)` setter: only "solid" and "dashed" are accepted. */
    method SetLineStyle(lineStyle: string) returns (outcome: Outcome)
      requires Valid()
      modifies this
      ensures Valid()
      ensures IsLineStyle(lineStyle) ==> outcome == Pass && style == old(style).(lineStyle := lineStyle)
      ensures !IsLineStyle(lineStyle) ==> outcome == Fail(ValueError(SplineLineStyleMessage)) && style == old(style)
      ensures points == old(points) && tangents == old(tangents)
    {
      if !IsLineStyle(lineStyle) {
        return Fail(ValueError(SplineLineStyleMessage));
      }
      style := style.(lineStyle := lineStyle);
      return Pass;
    }

    /** `set_color(c)`. */
    method SetColor(color: string)
      requires Valid()
      modifies this
      ensures Valid()
      ensures style == old(style).(color := color) && points == old(points) && tangents == old(tangents)
    {
      style := style.(color := color);
    }

    /** `set_thickness(t)`. */
    method SetThickness(thickness: real)
      requires Valid()
      modifies this
      ensures Valid()
      ensures style == old(style).(thickness := thickness) && points == old(points) && tangents == old(tangents)
    {
      style := style.(thickness := thickness);
    }

    /** `to_svg`: one path of all spans, stroked with the style, in a container of height `h`. */
    method ToSvg(h: real, hypot: (real, real) -> real) returns (e: Element)
      requires Valid()
      ensures e == SplinePath(Curve(), h, hypot)
    {
      var cmds := PathCommands(points, tangents, h, hypot);
      e := CubicPath(cmds, style.color, style.thickness, DashArray(style));
    }
  }

  /**
   * `Spline(points, tangents, style=..., **style_kw)`: fewer than two anchors, then a tangent count that
   * differs, are refused before the style is looked at; the style is resolved from the defaulted keywords,
   * so a style object is always refused.
   */
  method NewSpline(points: seq<Pt>, tangents: seq<Pt>, style: Option<Style>, kw: StyleKeywords)
    returns (r: Result<Spline>)
    ensures CheckAnchors(points, tangents).Some? ==> r == Failure(CheckAnchors(points, tangents).value)
    ensures CheckAnchors(points, tangents).None? && SplineStyleAsWritten(style, kw).Failure? ==> r == Failure(SplineStyleAsWritten(style, kw).error)
    ensures CheckAnchors(points, tangents).None? && SplineStyleAsWritten(style, kw).Success? ==>
      r.Success? && fresh(r.value) && r.value.Valid()
      && r.value.points == points && r.value.tangents == tangents && r.value.style == SplineStyleAsWritten(style, kw).value
  {
    var check := CheckAnchors(points, tangents);
    if check.Some? {
      return Failure(check.value);
    }
    var s := SplineStyleAsWritten(style, kw);
    if s.Failure? {
      return Failure(s.error);
    }
    var sp := new Spline(points, tangents, s.value);
    return Success(sp);
  }
}
