/**
 * Integer points and rectangles, with the semantics that java.awt.Point and
 * java.awt.Rectangle give them in the float manager. Coordinates are unbounded:
 * the wrap-around of Rectangle.intersects on int overflow is not modelled.
 */
module Geometry {

  datatype Point = Point(x: int, y: int)

  /** A rectangle with its top-left corner at (x, y). */
  datatype Rect = Rect(x: int, y: int, width: int, height: int)

  /** Rectangle.translate: moves the rectangle, keeping its size. */
  function Translate(r: Rect, dx: int, dy: int): Rect
  {
    Rect(r.x + dx, r.y + dy, r.width, r.height)
  }

  /** The y coordinate just below the rectangle. */
  function Bottom(r: Rect): int
  {
    r.y + r.height
  }

  /**
   * Rectangle.intersects: a rectangle with a non-positive width or height meets
   * nothing; otherwise the half-open spans must overlap on both axes.
   */
  predicate Intersects(a: Rect, b: Rect)
  {
    && a.width > 0 && a.height > 0 && b.width > 0 && b.height > 0
    && b.x + b.width > a.x && b.y + b.height > a.y
    && a.x + a.width > b.x && a.y + a.height > b.y
  }

  /** The pixel (px, py) lies in the half-open area of r. */
  predicate Contains(r: Rect, px: int, py: int)
  {
    r.x <= px < r.x + r.width && r.y <= py < r.y + r.height
  }

  /** Two rectangles intersect exactly when some pixel lies in both. */
  lemma IntersectsIffCommonPixel(a: Rect, b: Rect)
    ensures Intersects(a, b) <==> exists px, py :: Contains(a, px, py) && Contains(b, px, py)
  {
    if Intersects(a, b) {
      var px := if a.x < b.x then b.x else a.x;
      var py := if a.y < b.y then b.y else a.y;
      assert Contains(a, px, py) && Contains(b, px, py);
    }
  }
}
