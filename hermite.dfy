/**
 * Cubic-Hermite splines turned into one SVG path of cubic Bezier spans: the construction check and the
 * `to_svg` conversion, shared by the two Spline classes (axis_objects/spline.py and core/geometry2d.py).
 */
module Hermite {
  import opened Base
  import opened Geometry
  import opened SvgElements

  const TooFewPointsMessage := "Need at least two points for a spline."
  const LengthMismatchMessage := "points and tangents must be the same length."

  /** The shape every constructed spline has: two or more anchors, one tangent per anchor. */
  predicate ValidAnchors(points: seq<Pt>, tangents: seq<Pt>)
  {
    |points| >= 2 && |points| == |tangents|
  }

  /** The constructor's checks, in order: too few points, then a tangent count that differs. */
  function CheckAnchors(points: seq<Pt>, tangents: seq<Pt>): (r: Option<Error>)
    ensures r.None? <==> ValidAnchors(points, tangents)
    ensures |points| < 2 ==> r == Some(ValueError(TooFewPointsMessage))
    ensures |points| >= 2 && |points| != |tangents| ==> r == Some(ValueError(LengthMismatchMessage))
  {
    if |points| < 2 then Some(ValueError(TooFewPointsMessage))
    else if |points| != |tangents| then Some(ValueError(LengthMismatchMessage))
    else None
  }

  /**
   * What `math.hypot` is relied on for: a non-negative length that is zero exactly for the zero displacement.
   * The distance itself is a parameter of the model (`hypot`), since it is a floating-point square root.
   */
  ghost predicate IsNorm(hypot: (real, real) -> real)
  {
    forall dx, dy :: hypot(dx, dy) >= 0.0 && (hypot(dx, dy) == 0.0 <==> dx == 0.0 && dy == 0.0)
  }

  /** The span's characteristic length `hypot(P1 - P0) or 1.0`. */
  function SpanLength(p0: Pt, p1: Pt, hypot: (real, real) -> real): (h: real)
    ensures h != 0.0
  {
    var d := hypot(p1.x - p0.x, p1.y - p0.y);
    if d == 0.0 then 1.0 else d
  }

  /** With a true distance, the length is 1 for coincident anchors and their distance otherwise; never zero. */
  lemma SpanLengthFallback(p0: Pt, p1: Pt, hypot: (real, real) -> real)
    requires IsNorm(hypot)
    ensures SpanLength(p0, p1, hypot) > 0.0
    ensures p0 == p1 ==> SpanLength(p0, p1, hypot) == 1.0
    ensures p0 != p1 ==> SpanLength(p0, p1, hypot) == hypot(p1.x - p0.x, p1.y - p0.y)
  {
    var d := hypot(p1.x - p0.x, p1.y - p0.y);
    assert d >= 0.0 && (d == 0.0 <==> p1.x - p0.x == 0.0 && p1.y - p0.y == 0.0);
  }

  /** The first Bezier control point of a span: the cubic leaves `p0` with velocity `h * m0`. */
  function Control1(p0: Pt, m0: Pt, h: real): (c: Pt)
    ensures 3.0 * (c.x - p0.x) == h * m0.x && 3.0 * (c.y - p0.y) == h * m0.y
  {
    Pt(p0.x + m0.x * h / 3.0, p0.y + m0.y * h / 3.0)
  }

  /** The second Bezier control point of a span: the cubic arrives at `p1` with velocity `h * m1`. */
  function Control2(p1: Pt, m1: Pt, h: real): (c: Pt)
    ensures 3.0 * (p1.x - c.x) == h * m1.x && 3.0 * (p1.y - c.y) == h * m1.y
  {
    Pt(p1.x - m1.x * h / 3.0, p1.y - m1.y * h / 3.0)
  }

  /** The `C` command of span `i` (from anchor `i` to anchor `i + 1`), already flipped against `height`. */
  function SpanCommand(points: seq<Pt>, tangents: seq<Pt>, i: nat, height: real, hypot: (real, real) -> real): PathCmd
    requires i + 1 < |points| && |tangents| == |points|
  {
    var h := SpanLength(points[i], points[i + 1], hypot);
    CurveTo(FlipY(Control1(points[i], tangents[i], h), height),
            FlipY(Control2(points[i + 1], tangents[i + 1], h), height),
            FlipY(points[i + 1], height))
  }

  /** The commands of the first `n` spans, in anchor order. */
  function Spans(points: seq<Pt>, tangents: seq<Pt>, n: nat, height: real, hypot: (real, real) -> real): (r: seq<PathCmd>)
    requires n < |points| && |tangents| == |points|
    ensures |r| == n
    ensures forall i | 0 <= i < n :: r[i] == SpanCommand(points, tangents, i, height, hypot)
  {
    if n == 0 then [] else Spans(points, tangents, n - 1, height, hypot) + [SpanCommand(points, tangents, n - 1, height, hypot)]
  }

  /** The path of a spline: a move to the first anchor and one cubic command per span. */
  function Commands(points: seq<Pt>, tangents: seq<Pt>, height: real, hypot: (real, real) -> real): seq<PathCmd>
    requires ValidAnchors(points, tangents)
  {
    [MoveTo(FlipY(points[0], height))] + Spans(points, tangents, |points| - 1, height, hypot)
  }

  /**
   * A spline with n anchors gives exactly one `M` followed by n - 1 `C` commands, and command i is the
   * span from anchor i - 1 to anchor i.
   */
  lemma CommandsAreSpans(points: seq<Pt>, tangents: seq<Pt>, height: real, hypot: (real, real) -> real)
    requires ValidAnchors(points, tangents)
    ensures |Commands(points, tangents, height, hypot)| == |points|
    ensures Commands(points, tangents, height, hypot)[0] == MoveTo(FlipY(points[0], height))
    ensures forall i | 1 <= i < |points| ::
      Commands(points, tangents, height, hypot)[i] == SpanCommand(points, tangents, i - 1, height, hypot)
  {
    var spans := Spans(points, tangents, |points| - 1, height, hypot);
    forall i | 1 <= i < |points|
      ensures Commands(points, tangents, height, hypot)[i] == SpanCommand(points, tangents, i - 1, height, hypot)
    {
      assert Commands(points, tangents, height, hypot)[i] == spans[i - 1];
    }
  }

  /**
   * Command i ends at the flipped anchor i, and its control points are the flipped `P[i-1] + m[i-1] h / 3`
   * and `P[i] - m[i] h / 3` for that span's own length `h`.
   */
  lemma CommandsShape(points: seq<Pt>, tangents: seq<Pt>, height: real, hypot: (real, real) -> real, i: nat)
    requires ValidAnchors(points, tangents) && 1 <= i < |points|
    ensures Commands(points, tangents, height, hypot)[i].CurveTo?
    ensures Commands(points, tangents, height, hypot)[i].end == FlipY(points[i], height)
    ensures Commands(points, tangents, height, hypot)[i].c1
         == FlipY(Control1(points[i - 1], tangents[i - 1], SpanLength(points[i - 1], points[i], hypot)), height)
    ensures Commands(points, tangents, height, hypot)[i].c2
         == FlipY(Control2(points[i], tangents[i], SpanLength(points[i - 1], points[i], hypot)), height)
  {
    CommandsAreSpans(points, tangents, height, hypot);
  }

  /** A span between two coincident anchors uses the fallback length 1: its controls are the tangents over 3. */
  lemma CoincidentAnchorsUseUnitLength(points: seq<Pt>, tangents: seq<Pt>, height: real, hypot: (real, real) -> real, i: nat)
    requires ValidAnchors(points, tangents) && IsNorm(hypot)
    requires 1 <= i < |points| && points[i - 1] == points[i]
    ensures Commands(points, tangents, height, hypot)[i].c1 == FlipY(Control1(points[i], tangents[i - 1], 1.0), height)
    ensures Commands(points, tangents, height, hypot)[i].c2 == FlipY(Control2(points[i], tangents[i], 1.0), height)
  {
    CommandsShape(points, tangents, height, hypot, i);
    SpanLengthFallback(points[i - 1], points[i], hypot);
  }

  /** One turn of the `to_svg` loop: the span's length with its fallback, its two controls, and the flipped command. */
  method SpanToSvg(p0: Pt, p1: Pt, m0: Pt, m1: Pt, height: real, hypot: (real, real) -> real) returns (cmd: PathCmd)
    ensures var h := SpanLength(p0, p1, hypot);
      cmd == CurveTo(FlipY(Control1(p0, m0, h), height), FlipY(Control2(p1, m1, h), height), FlipY(p1, height))
  {
    var d := hypot(p1.x - p0.x, p1.y - p0.y);
    var h := if d == 0.0 then 1.0 else d;
    var c1 := Pt(p0.x + m0.x * h / 3.0, p0.y + m0.y * h / 3.0);
    var c2 := Pt(p1.x - m1.x * h / 3.0, p1.y - m1.y * h / 3.0);
    cmd := CurveTo(FlipY(c1, height), FlipY(c2, height), FlipY(p1, height));
  }

  /** The `to_svg` loop: start with the move, append one cubic command per span. */
  method PathCommands(points: seq<Pt>, tangents: seq<Pt>, height: real, hypot: (real, real) -> real) returns (cmds: seq<PathCmd>)
    requires ValidAnchors(points, tangents)
    ensures cmds == Commands(points, tangents, height, hypot)
  {
    cmds := [MoveTo(FlipY(points[0], height))];
    var i := 0;
    while i < |points| - 1
      invariant 0 <= i <= |points| - 1
      invariant cmds == [MoveTo(FlipY(points[0], height))] + Spans(points, tangents, i, height, hypot)
    {
      var cmd := SpanToSvg(points[i], points[i + 1], tangents[i], tangents[i + 1], height, hypot);
      assert cmd == SpanCommand(points, tangents, i, height, hypot);
      cmds := cmds + [cmd];
      i := i + 1;
    }
  }
}
