/** Plane geometry shared by the tools, the renderer and the exporter: axis-aligned boxes,
    the box spanned by two drag points, and the mapping between screen and canvas space. */
module Geometry {
  import opened Base
  import opened Types

  /** An axis-aligned box given by its top-left corner and its size. */
  datatype Box = Box(x: real, y: real, width: real, height: real)

  /** The box spanned by a drag from `a` to `b`, whichever way the pointer moved: the
      min/max normalisation the shape tools, the arrow tool and the selection box share. */
  function Span(a: Point, b: Point): (r: Box)
    ensures r.width >= 0.0 && r.height >= 0.0
    ensures r.x == Min(a.x, b.x) && r.y == Min(a.y, b.y)
    ensures r.x + r.width == Max(a.x, b.x) && r.y + r.height == Max(a.y, b.y)
  {
    Box(Min(a.x, b.x), Min(a.y, b.y), Max(a.x, b.x) - Min(a.x, b.x), Max(a.y, b.y) - Min(a.y, b.y))
  }

  /** The running minima and maxima of a min/max fold. */
  datatype Extent = Extent(minX: real, minY: real, maxX: real, maxY: real)

  /** Widening an extent to take in one more box. */
  function Grow(ext: Extent, x1: real, y1: real, x2: real, y2: real): (r: Extent)
    ensures r.minX == Min(ext.minX, x1) && r.minY == Min(ext.minY, y1)
    ensures r.maxX == Max(ext.maxX, x2) && r.maxY == Max(ext.maxY, y2)
  {
    Extent(Min(ext.minX, x1), Min(ext.minY, y1), Max(ext.maxX, x2), Max(ext.maxY, y2))
  }

  /** Inclusive containment of a point in a box. */
  predicate InBox(p: Point, b: Box)
  {
    b.x <= p.x <= b.x + b.width && b.y <= p.y <= b.y + b.height
  }

  /** The element's own box. */
  function BoxOf(e: Element): Box { Box(e.x, e.y, e.width, e.height) }

  /** `inner` lies entirely within `outer` (edges may touch). */
  predicate Within(inner: Box, outer: Box)
  {
    outer.x <= inner.x && outer.y <= inner.y
    && inner.x + inner.width <= outer.x + outer.width
    && inner.y + inner.height <= outer.y + outer.height
  }

  /** The drag direction does not matter, both drag points lie in the spanned box, and it is
      the smallest box that contains them. */
  lemma SpanProperties(a: Point, b: Point, c: Box)
    ensures Span(a, b) == Span(b, a)
    ensures InBox(a, Span(a, b)) && InBox(b, Span(a, b))
    ensures InBox(a, c) && InBox(b, c) ==> Within(Span(a, b), c)
  {
  }

  /** A dragged-out box has zero size exactly when the pointer did not move along that axis. */
  lemma SpanSize(a: Point, b: Point)
    ensures Span(a, b).width == Abs(b.x - a.x) && Span(a, b).height == Abs(b.y - a.y)
  {
  }

  // ---------------------------------------------------------------- coordinates

  /** `getCanvasCoordinates`: client position minus the canvas' offset on the page and the
      scroll, divided by the zoom. */
  function ToCanvas(client: Point, origin: Point, scrollX: real, scrollY: real, zoom: real): Point
    requires zoom != 0.0
  {
    Point((client.x - origin.x - scrollX) / zoom, (client.y - origin.y - scrollY) / zoom)
  }

  /** Where a canvas point appears on the page: the placement of the text editor overlay. */
  function ToClient(p: Point, origin: Point, scrollX: real, scrollY: real, zoom: real): Point
  {
    Point(p.x * zoom + scrollX + origin.x, p.y * zoom + scrollY + origin.y)
  }

  /** The two conversions are inverse to each other for every non-zero zoom. */
  lemma ToCanvasToClient(client: Point, p: Point, origin: Point, sx: real, sy: real, zoom: real)
    requires zoom != 0.0
    ensures ToClient(ToCanvas(client, origin, sx, sy, zoom), origin, sx, sy, zoom) == client
    ensures ToCanvas(ToClient(p, origin, sx, sy, zoom), origin, sx, sy, zoom) == p
  {
    var q := ToCanvas(client, origin, sx, sy, zoom);
    assert q.x * zoom == client.x - origin.x - sx;
    assert q.y * zoom == client.y - origin.y - sy;
    var c := ToClient(p, origin, sx, sy, zoom);
    assert (c.x - origin.x - sx) / zoom == p.x * zoom / zoom;
    assert (c.y - origin.y - sy) / zoom == p.y * zoom / zoom;
  }

  /** Every point moved by (dx, dy). */
  function Shift(pts: seq<Point>, dx: real, dy: real): (r: seq<Point>)
    ensures |r| == |pts|
    ensures forall i :: 0 <= i < |pts| ==> r[i] == Point(pts[i].x + dx, pts[i].y + dy)
  {
    seq(|pts|, i requires 0 <= i < |pts| => Point(pts[i].x + dx, pts[i].y + dy))
  }
}
