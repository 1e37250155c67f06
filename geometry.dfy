/** Plane points, translations and the y-flip into document space (core/geometry2d.py). */
module Geometry {

  /** A point or a displacement `(x, y)`; `Point2D`, `Vector2D` and the source's `[x, y]` lists. */
  datatype Pt = Pt(x: real, y: real)

  const Origin := Pt(0.0, 0.0)

  /** `Point2D.__add__`: componentwise. */
  function Add(p: Pt, q: Pt): (r: Pt)
    ensures r.x - q.x == p.x && r.y - q.y == p.y
    ensures q == Origin ==> r == p
  {
    Pt(p.x + q.x, p.y + q.y)
  }

  /** `Point2D.__sub__`: componentwise. */
  function Sub(p: Pt, q: Pt): (r: Pt)
    ensures Add(r, q) == p
    ensures p == q <==> r == Origin
  {
    Pt(p.x - q.x, p.y - q.y)
  }

  /** Subtraction undoes addition and addition undoes subtraction. */
  lemma AddSubInverse(p: Pt, q: Pt)
    ensures Sub(Add(p, q), q) == p
    ensures Add(Sub(p, q), q) == p
  {
  }

  /** A pure translation; the default one moves nothing. */
  datatype Transform = Transform(dx: real, dy: real)

  const IdentityTransform := Transform(0.0, 0.0)

  /** `Transform.apply_to_point`. */
  function ApplyToPoint(t: Transform, p: Pt): (r: Pt)
    ensures Sub(r, p) == Pt(t.dx, t.dy)
    ensures t == IdentityTransform ==> r == p
  {
    Pt(p.x + t.dx, p.y + t.dy)
  }

  /**
   * The flip from a container's y-up coordinates into document y-down coordinates against the
   * container height `h` (`_to_svg_xy`, and every `h - y` of the renderers).
   */
  function FlipY(p: Pt, h: real): (r: Pt)
    ensures r.x == p.x && r.y + p.y == h
  {
    Pt(p.x, h - p.y)
  }

  /** Flipping twice against the same height gives the point back. */
  lemma FlipYInvolution(p: Pt, h: real)
    ensures FlipY(FlipY(p, h), h) == p
  {
  }

  /** Translating before the flip moves the document point by the same x and the opposite y. */
  lemma FlipYOfAdd(p: Pt, d: Pt, h: real)
    ensures FlipY(Add(p, d), h) == Pt(FlipY(p, h).x + d.x, FlipY(p, h).y - d.y)
  {
  }
}
