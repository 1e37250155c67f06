/** Visual attributes of a drawable and the dash pattern derived from them (core/style.py). */
module Styles {

  /** The `Style` dataclass: a value compared field by field. */
  datatype Style = Style(color: string, thickness: real, lineStyle: string)

  const Solid := "solid"
  const Dashed := "dashed"

  /** The two line styles the setters accept. */
  predicate IsLineStyle(lineStyle: string)
  {
    lineStyle == Dashed || lineStyle == Solid
  }

  /** The setters' rejection messages: vectors and axes list "dashed" first, splines "solid". */
  const LineStyleMessage := "line_style must be 'dashed' or 'solid'"
  const SplineLineStyleMessage := "line_style must be 'solid' or 'dashed'"

  /** The dataclass defaults. */
  const DefaultStyle := Style("black", 2.0, Solid)

  /** The `Theme` presets. */
  const ThemeDefault := DefaultStyle
  const ThemeAxes := Style("gray", 1.0, Dashed)
  const ThemeHighlight := Style("red", 2.5, Solid)
  const ThemeSubtle := Style("lightgray", 1.0, Dashed)

  /** The stroke-dasharray a line style maps to: no dashes for "solid", a fixed 5/3 pattern for anything else. */
  function DashPattern(lineStyle: string): (r: string)
    ensures r == "none" <==> lineStyle == Solid
    ensures r != "none" <==> r == "5,3"
  {
    if lineStyle == Solid then "none" else "5,3"
  }

  /** The `dasharray` property of a style. */
  function DashArray(s: Style): (r: string)
    ensures r == "none" <==> s.lineStyle == Solid
    ensures r == "none" || r == "5,3"
  {
    DashPattern(s.lineStyle)
  }

  /** The dash array is a function of the line style alone: colour and thickness never affect it. */
  lemma DashArrayIgnoresColorAndThickness(s: Style, t: Style)
    requires s.lineStyle == t.lineStyle
    ensures DashArray(s) == DashArray(t)
  {
  }

  /** The presets: the default and highlight styles draw solid lines, the axes and subtle styles dashed ones. */
  lemma ThemeDashes()
    ensures DashArray(ThemeDefault) == "none" && DashArray(ThemeHighlight) == "none"
    ensures DashArray(ThemeAxes) == "5,3" && DashArray(ThemeSubtle) == "5,3"
    ensures ThemeAxes.thickness < ThemeDefault.thickness < ThemeHighlight.thickness
  {
  }
}
