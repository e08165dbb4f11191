/**
 * Card geometry shared by the hover card and the global spotlight: a
 * bounding rectangle as returned by getBoundingClientRect, its centre, and
 * the "percentage of an extent" used for both glow positions.
 * Coordinates are exact reals; IEEE rounding is not modelled.
 */
module Geometry {

  /** A bounding client rectangle. */
  datatype Rect = Rect(left: real, top: real, width: real, height: real)

  /** A rectangle with a non-degenerate area (divisions by width/height are defined). */
  predicate Proper(r: Rect) {
    r.width > 0.0 && r.height > 0.0
  }

  /** The point (px, py) lies within the closed rectangle. */
  predicate Inside(r: Rect, px: real, py: real) {
    r.left <= px <= r.left + r.width && r.top <= py <= r.top + r.height
  }

  /** `offset` expressed as a percentage of `extent`: (offset / extent) * 100. */
  function Percent(offset: real, extent: real): (p: real)
    requires extent > 0.0
    ensures p * extent == 100.0 * offset
    ensures 0.0 <= offset <= extent ==> 0.0 <= p <= 100.0
    ensures offset == extent / 2.0 ==> p == 50.0
  {
    (offset / extent) * 100.0
  }

  /** Centre of a rectangle. */
  function CenterX(r: Rect): (cx: real)
    ensures cx - r.left == r.left + r.width - cx
  {
    r.left + r.width / 2.0
  }

  function CenterY(r: Rect): (cy: real)
    ensures cy - r.top == r.top + r.height - cy
  {
    r.top + r.height / 2.0
  }
}
