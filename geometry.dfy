/** Plane geometry shared by the scrolling widgets: integer pairs for points,
    offsets and sizes, the axis-aligned rectangle the widgets are laid out
    with, and the clamp that every scroll offset goes through. */
module Geometry {

  datatype Option<T> = None | Some(value: T)

  /** An (x, y) pair: a point, a scroll offset, or a size (width, height). */
  datatype Vec = Vec(x: int, y: int)

  function Min(a: int, b: int): int { if a <= b then a else b }

  function Max(a: int, b: int): int { if a >= b then a else b }

  /** Componentwise sum of two pairs (tingbot.graphics._xy_add); taking b
      away again gives a. */
  function Add(a: Vec, b: Vec): (r: Vec)
    ensures r.x - b.x == a.x && r.y - b.y == a.y
  {
    Vec(a.x + b.x, a.y + b.y)
  }

  /** Componentwise difference (tingbot.graphics._xy_subtract); it undoes Add. */
  function Sub(a: Vec, b: Vec): (r: Vec)
    ensures Add(r, b) == a
    ensures r.x + b.x == a.x && r.y + b.y == a.y
  {
    Vec(a.x - b.x, a.y - b.y)
  }

  /** util.clamp(lo, hi, v), taken to be min(max(v, lo), hi): the value
      nearest to v within [lo, hi]. */
  function Clamp(lo: int, hi: int, v: int): (r: int)
    ensures r <= hi
    ensures lo <= hi ==> lo <= r
    ensures lo <= v <= hi ==> r == v
    ensures v < lo <= hi ==> r == lo
    ensures hi < v ==> r == hi
  {
    Min(Max(v, lo), hi)
  }

  /** The part of pygame.Rect the layout uses: a top-left corner and a size. */
  datatype Rect = Rect(left: int, top: int, width: int, height: int) {

    function Right(): int { left + width }

    function Bottom(): int { top + height }

    function TopRight(): Vec { Vec(Right(), top) }

    function BottomLeft(): Vec { Vec(left, Bottom()) }

    function BottomRight(): Vec { Vec(Right(), Bottom()) }

    /** The point lies in the half-open area [left, right) x [top, bottom). */
    predicate Contains(p: Vec) {
      left <= p.x < Right() && top <= p.y < Bottom()
    }

    /** Every point of this rectangle lies in `outer`. */
    predicate Within(outer: Rect) {
      outer.left <= left && Right() <= outer.Right() &&
      outer.top <= top && Bottom() <= outer.Bottom()
    }

    /** No point lies in both rectangles. */
    predicate DisjointFrom(other: Rect) {
      Right() <= other.left || other.Right() <= left ||
      Bottom() <= other.top || other.Bottom() <= top
    }
  }

  /** pygame.Rect(xy, size). */
  function RectAt(xy: Vec, size: Vec): Rect { Rect(xy.x, xy.y, size.x, size.y) }
}
