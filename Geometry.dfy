/** Optional values, the model's stand-in for Swift's `T?`. */
module Wrappers {
  datatype Option<+T> = None | Some(value: T)
}

/**
  Points, sizes and rectangles as CoreGraphics treats them: a rectangle is an
  origin plus a size whose components may be negative, and every edge
  accessor (`minX`, `maxY`, `width`, ...) reads the standardised rectangle.
  Coordinates are `real`; floating-point rounding is not modelled.
 */
module Geometry {
  import opened Wrappers

  datatype Point = Point(x: real, y: real)

  datatype Size = Size(width: real, height: real)

  datatype Rect = Rect(x: real, y: real, w: real, h: real) {
    function MinX(): real { if w < 0.0 then x + w else x }
    function MaxX(): real { if w < 0.0 then x else x + w }
    function MinY(): real { if h < 0.0 then y + h else y }
    function MaxY(): real { if h < 0.0 then y else y + h }

    /** `CGRect.width`: the standardised (never negative) width. */
    function Width(): real { MaxX() - MinX() }

    /** `CGRect.height`: the standardised (never negative) height. */
    function Height(): real { MaxY() - MinY() }

    /** `CGRect.isEmpty` for a rectangle that is not the null rectangle. */
    predicate IsEmpty() { Width() == 0.0 || Height() == 0.0 }

    /** The closed point set the rectangle covers. */
    predicate Contains(p: Point) {
      MinX() <= p.x <= MaxX() && MinY() <= p.y <= MaxY()
    }
  }

  function Min(a: real, b: real): real { if a <= b then a else b }

  function Max(a: real, b: real): real { if a <= b then b else a }

  /**
    `CGRect.intersection`: `None` stands for `CGRect.null`, returned when the
    two closed rectangles share no point; otherwise the standardised overlap,
    which has zero width or height when the rectangles only touch.
   */
  function Intersection(a: Rect, b: Rect): (r: Option<Rect>)
    ensures r.None? ==> forall p: Point :: !(a.Contains(p) && b.Contains(p))
    ensures r.Some? ==> r.value.w >= 0.0 && r.value.h >= 0.0
    ensures r.Some? ==> forall p: Point :: r.value.Contains(p) <==> a.Contains(p) && b.Contains(p)
    ensures r.Some? ==> r.value.MinX() == Max(a.MinX(), b.MinX()) && r.value.MaxX() == Min(a.MaxX(), b.MaxX())
    ensures r.Some? ==> r.value.MinY() == Max(a.MinY(), b.MinY()) && r.value.MaxY() == Min(a.MaxY(), b.MaxY())
  {
    var x1 := Max(a.MinX(), b.MinX());
    var x2 := Min(a.MaxX(), b.MaxX());
    var y1 := Max(a.MinY(), b.MinY());
    var y2 := Min(a.MaxY(), b.MaxY());
    if x2 < x1 || y2 < y1 then None else Some(Rect(x1, y1, x2 - x1, y2 - y1))
  }
}
