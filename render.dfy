/**
 * The boxes of the render tree, as far as the float manager sees them, and a
 * drawing surface that records what is painted on it.
 */
module Render {
  import opened Geometry
  import opened Style
  import opened Placement

  /**
   * A block box (a FloatedBlockBox when its style floats). The float manager
   * writes x and y and the pending flag; width and height are what getWidth()
   * and getBounds report, containingWidth is the content width of its
   * containing block, and the style facts are resolved before layout.
   */
  class Box {
    var x: int
    var y: int
    const width: int
    const height: int
    const containingWidth: int
    const cssFloat: CssFloat
    const clear: CssClear
    var pending: bool

    constructor (x: int, y: int, width: int, height: int, containingWidth: int, cssFloat: CssFloat, clear: CssClear)
      ensures this.x == x && this.y == y && !pending
      ensures this.width == width && this.height == height && this.containingWidth == containingWidth
      ensures this.cssFloat == cssFloat && this.clear == clear
    {
      this.x, this.y := x, y;
      this.width, this.height, this.containingWidth := width, height, containingWidth;
      this.cssFloat, this.clear := cssFloat, clear;
      pending := false;
    }

    /** Where the box currently sits, in its formatting context's frame. */
    function Position(): Pos
      reads this
    {
      Pos(x, y)
    }

    /** The facts of the box that placement reads. */
    function Dimensions(): Shape
    {
      Shape(width, height, containingWidth)
    }
  }

  /** A line box at the moment its float distance is asked for. */
  datatype Line = Line(x: int, y: int, width: int, height: int, contentWidth: int) {
    /** getBounds(tx, ty): the line's rectangle translated by (tx, ty). */
    function Bounds(tx: int, ty: int): Rect
    {
      Rect(x + tx, y + ty, width, height)
    }
  }

  /** One call of Box.paint: the box, the translation it was given, and the surface origin at the time. */
  datatype PaintCall = PaintCall(box: Box, tx: int, ty: int, origin: Point)

  /**
   * A RenderingContext with its Graphics: two translatable origins and the
   * sequence of boxes painted on it. How a box draws itself is not modelled.
   */
  class RenderingSurface {
    var origin: Point
    var graphicsOrigin: Point
    var painted: seq<PaintCall>

    constructor ()
      ensures origin == Point(0, 0) && graphicsOrigin == Point(0, 0) && painted == []
    {
      origin, graphicsOrigin, painted := Point(0, 0), Point(0, 0), [];
    }

    /** RenderingContext.translate. */
    method Translate(dx: int, dy: int)
      modifies this`origin
      ensures origin == Point(old(origin).x + dx, old(origin).y + dy)
    {
      origin := Point(origin.x + dx, origin.y + dy);
    }

    /** Graphics.translate. */
    method TranslateGraphics(dx: int, dy: int)
      modifies this`graphicsOrigin
      ensures graphicsOrigin == Point(old(graphicsOrigin).x + dx, old(graphicsOrigin).y + dy)
    {
      graphicsOrigin := Point(graphicsOrigin.x + dx, graphicsOrigin.y + dy);
    }

    /** Box.paint(c, tx, ty), recorded. */
    method Paint(b: Box, tx: int, ty: int)
      modifies this`painted
      ensures painted == old(painted) + [PaintCall(b, tx, ty, origin)]
    {
      painted := painted + [PaintCall(b, tx, ty, origin)];
    }
  }
}
