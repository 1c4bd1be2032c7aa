/**
  Core Graphics value types over exact reals.  A `Rect` keeps its raw origin
  and size, as a `CGRect` does; the accessors `MinX`, `MaxY`, `Width` and
  `Height` are the standardized ones, so a rect with a negative size reads the
  same as its flipped twin.
 */
module Geometry {

  datatype Point = Point(x: real, y: real)

  datatype Size = Size(width: real, height: real)

  datatype Rect = Rect(origin: Point, size: Size)

  const ZeroSize: Size := Size(0.0, 0.0)

  function Abs(v: real): real {
    if v < 0.0 then -v else v
  }

  function Min(a: real, b: real): real {
    if a <= b then a else b
  }

  function Max(a: real, b: real): real {
    if a <= b then b else a
  }

  function MinX(r: Rect): real {
    Min(r.origin.x, r.origin.x + r.size.width)
  }

  function MinY(r: Rect): real {
    Min(r.origin.y, r.origin.y + r.size.height)
  }

  function MaxY(r: Rect): real {
    Max(r.origin.y, r.origin.y + r.size.height)
  }

  function Width(r: Rect): real {
    Abs(r.size.width)
  }

  function Height(r: Rect): real {
    Abs(r.size.height)
  }

  /** A rect whose size is non-negative, so that its raw and standardized readings agree. */
  predicate Standard(r: Rect) {
    r.size.width >= 0.0 && r.size.height >= 0.0
  }
}
