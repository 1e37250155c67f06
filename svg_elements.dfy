/** The vocabulary of the emitted document: one datatype value per SVG element (or tag) the renderers write. */
module SvgElements {
  import opened Base
  import opened Geometry

  /** A command of a cubic path's `d` attribute. */
  datatype PathCmd = MoveTo(p: Pt) | CurveTo(c1: Pt, c2: Pt, end: Pt)

  datatype Element =
    /** `<svg width height xmlns=...>` */
    | SvgOpen(width: real, height: real)
    | SvgClose
    /** `<rect>`; `bordered` is the diagram outline's `stroke="black" stroke-width="2"`. */
    | Rect(width: real, height: real, fill: string, bordered: bool)
    /** `<g transform="translate(tx,ty)">` */
    | GroupOpen(tx: real, ty: real)
    | GroupClose
    | Circle(cx: real, cy: real, r: real, fill: string)
    /** `<line>`; `dash` is the stroke-dasharray attribute when written, `roundCap` a round stroke-linecap. */
    | Line(from: Pt, to: Pt, stroke: string, strokeWidth: real, dash: Option<string>, roundCap: bool)
    /** `<path d="M from Q ctrl to">`, round caps, no fill. */
    | QuadPath(from: Pt, ctrl: Pt, to: Pt, stroke: string, strokeWidth: real)
    /** `<path d="M ... C ...">`, round caps, no fill. */
    | CubicPath(cmds: seq<PathCmd>, stroke: string, strokeWidth: real, dashArray: string)
}
