/**
 * Axis-aligned rectangles in canonical coordinates (OfxRectD) and the
 * sentinel convention for unbounded sides.
 */
module Rects {

  /** The OpenFX "infinite" flags kOfxFlagInfiniteMin / kOfxFlagInfiniteMax (INT_MIN / INT_MAX). */
  const INF_MIN: real := -2147483648.0
  const INF_MAX: real := 2147483647.0

  /** Field order follows OfxRectD: (x1, y1) is the lower-left, (x2, y2) the upper-right corner. */
  datatype Rect = Rect(x1: real, y1: real, x2: real, y2: real)

  /** A 2D point in canonical coordinates (OfxPointD). */
  datatype Point2 = Point2(x: real, y: real)

  /** A time interval (OfxRangeD). */
  datatype Range = Range(min: real, max: real)

  /** The full-infinite rectangle: every side at its sentinel. */
  const Infinite := Rect(INF_MIN, INF_MIN, INF_MAX, INF_MAX)

  /** The start value of a running union: min and max sentinels swapped. */
  const SuperEmpty := Rect(INF_MAX, INF_MAX, INF_MIN, INF_MIN)

  predicate WellFormed(r: Rect) {
    r.x1 <= r.x2 && r.y1 <= r.y2
  }

  /** Some side is at or beyond its sentinel. */
  predicate IsInfinite(r: Rect) {
    r.x1 <= INF_MIN || r.x2 >= INF_MAX || r.y1 <= INF_MIN || r.y2 >= INF_MAX
  }

  /** Every side is at or beyond its sentinel. */
  predicate Unbounded(r: Rect) {
    r.x1 <= INF_MIN && r.x2 >= INF_MAX && r.y1 <= INF_MIN && r.y2 >= INF_MAX
  }

  predicate Contains(outer: Rect, inner: Rect) {
    outer.x1 <= inner.x1 && inner.x2 <= outer.x2 && outer.y1 <= inner.y1 && inner.y2 <= outer.y2
  }

  predicate ContainsPoint(r: Rect, p: Point2) {
    r.x1 <= p.x <= r.x2 && r.y1 <= p.y <= r.y2
  }

  function Min(a: real, b: real): real {
    if a < b then a else b
  }

  function Max(a: real, b: real): real {
    if a < b then b else a
  }

  /** The bounding box of two rectangles (rectBoundingBox), side by side min/max. */
  function Union(a: Rect, b: Rect): (r: Rect)
    ensures Contains(r, a) && Contains(r, b)
    ensures r.x1 in {a.x1, b.x1} && r.y1 in {a.y1, b.y1} && r.x2 in {a.x2, b.x2} && r.y2 in {a.y2, b.y2}
  {
    Rect(Min(a.x1, b.x1), Min(a.y1, b.y1), Max(a.x2, b.x2), Max(a.y2, b.y2))
  }

  /** The union is the least rectangle containing both arguments. */
  lemma UnionIsLeast(a: Rect, b: Rect, c: Rect)
    requires Contains(c, a) && Contains(c, b)
    ensures Contains(c, Union(a, b))
  {
  }

  /** Adding the same rectangle again changes nothing. */
  lemma UnionAbsorb(a: Rect, b: Rect)
    ensures Union(Union(a, b), b) == Union(a, b)
  {
  }

  /** The rectangle moved by (dx, dy). */
  function Shift(r: Rect, dx: real, dy: real): Rect {
    Rect(r.x1 + dx, r.y1 + dy, r.x2 + dx, r.y2 + dy)
  }
}
