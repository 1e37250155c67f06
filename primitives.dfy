/** The drawable base: bounding boxes and the choice of a style at construction (core/primitives.py). */
module Primitives {
  import opened Base
  import opened Styles

  datatype BoundingBox = BoundingBox(minX: real, minY: real, maxX: real, maxY: real)

  /** The `width` property. */
  function Width(b: BoundingBox): (r: real)
    ensures b.minX + r == b.maxX
  {
    b.maxX - b.minX
  }

  /** The `height` property. */
  function Height(b: BoundingBox): (r: real)
    ensures b.minY + r == b.maxY
  {
    b.maxY - b.minY
  }

  /** The default `bbox()` of a drawable: the empty box at the origin. */
  function DefaultBBox(): (b: BoundingBox)
    ensures Width(b) == 0.0 && Height(b) == 0.0
    ensures b.minX == 0.0 && b.minY == 0.0
  {
    BoundingBox(0.0, 0.0, 0.0, 0.0)
  }

  /** The style keywords a drawable's constructor may be given; `None` is a keyword left out. */
  datatype StyleKeywords = StyleKeywords(color: Option<string>, thickness: Option<real>, lineStyle: Option<string>)
  {
    predicate IsEmpty() { color.None? && thickness.None? && lineStyle.None? }
  }

  const NoKeywords := StyleKeywords(None, None, None)

  const BothStyleFormsMessage := "Cannot specify both style object and style keywords"

  /** `BaseDrawable.__init__`: a style object, or keywords over the defaults, but never both. */
  function ResolveStyle(style: Option<Style>, kw: StyleKeywords): (r: Result<Style>)
    ensures r.Failure? <==> style.Some? && !kw.IsEmpty()
    ensures r.Failure? ==> r.error == ValueError(BothStyleFormsMessage)
    ensures style.Some? && r.Success? ==> r.value == style.value
    ensures style.None? ==> (r.Success?
      && (kw.color.Some? ==> r.value.color == kw.color.value)
      && (kw.color.None? ==> r.value.color == DefaultStyle.color)
      && (kw.thickness.Some? ==> r.value.thickness == kw.thickness.value)
      && (kw.thickness.None? ==> r.value.thickness == DefaultStyle.thickness)
      && (kw.lineStyle.Some? ==> r.value.lineStyle == kw.lineStyle.value)
      && (kw.lineStyle.None? ==> r.value.lineStyle == DefaultStyle.lineStyle))
  {
    if style.Some? && !kw.IsEmpty() then Failure(ValueError(BothStyleFormsMessage))
    else if style.Some? then Success(style.value)
    else Success(Style(kw.color.GetOr(DefaultStyle.color),
                       kw.thickness.GetOr(DefaultStyle.thickness),
                       kw.lineStyle.GetOr(DefaultStyle.lineStyle)))
  }

  /** Neither a style object nor keywords: the drawable gets the `Style` defaults. */
  lemma NoStyleGivesDefault()
    ensures ResolveStyle(None, NoKeywords) == Success(DefaultStyle)
  {
  }
}
