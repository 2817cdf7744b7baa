/** The freehand (pen) tool: it records the pointer path, thinned so that consecutive points
    are at least 2 apart, keeps a preview whose box covers the path padded by half the stroke
    width, and adds the stroke on release when it has at least two points. */
module DrawTool {
  import opened Base
  import opened Types
  import opened Geometry
  import opened ToolContext

  /** The minimum spacing between recorded points. */
  const MinDistance: real := 2.0

  /** The extent of a non-empty point list, folded from the first point to the last. */
  function PointExtent(pts: seq<Point>): (r: Extent)
    requires |pts| > 0
    ensures forall i :: 0 <= i < |pts| ==>
      r.minX <= pts[i].x <= r.maxX && r.minY <= pts[i].y <= r.maxY
    ensures exists i :: 0 <= i < |pts| && pts[i].x == r.minX
    ensures exists i :: 0 <= i < |pts| && pts[i].x == r.maxX
    ensures exists i :: 0 <= i < |pts| && pts[i].y == r.minY
    ensures exists i :: 0 <= i < |pts| && pts[i].y == r.maxY
  {
    if |pts| == 1 then Extent(pts[0].x, pts[0].y, pts[0].x, pts[0].y)
    else
      var last := pts[|pts| - 1];
      var r := Grow(PointExtent(pts[..|pts| - 1]), last.x, last.y, last.x, last.y);
      assert forall i :: 0 <= i < |pts| - 1 ==> pts[..|pts| - 1][i] == pts[i];
      r
  }

  /** The padding `(strokeWidth || 2) / 2`. */
  function Padding(strokeWidth: real): real { NumOr(strokeWidth, 2.0) / 2.0 }

  /** The preview box `updateBoundingBox` computes for a path. */
  function StrokeBox(pts: seq<Point>, strokeWidth: real): (b: Box)
    requires |pts| > 0
  {
    var ext := PointExtent(pts);
    var pad := Padding(strokeWidth);
    Box(ext.minX - pad, ext.minY - pad, ext.maxX - ext.minX + pad * 2.0,
        ext.maxY - ext.minY + pad * 2.0)
  }

  /** Every recorded point lies inside the padded box, at least the padding away from each
      edge, whenever the stroke width is not negative. */
  lemma StrokeBoxCovers(pts: seq<Point>, strokeWidth: real)
    requires |pts| > 0 && strokeWidth >= 0.0
    ensures var b := StrokeBox(pts, strokeWidth); var pad := Padding(strokeWidth);
      pad > 0.0 &&
      forall i :: 0 <= i < |pts| ==>
        InBox(pts[i], b)
        && b.x + pad <= pts[i].x <= b.x + b.width - pad
        && b.y + pad <= pts[i].y <= b.y + b.height - pad
  {
  }

  /** Consecutive points of the path are at least `MinDistance` apart. */
  predicate Spaced(pts: seq<Point>)
  {
    forall i :: 0 < i < |pts| ==> DistSq(pts[i - 1], pts[i]) >= MinDistance * MinDistance
  }

  /** Appending a point far enough from the end keeps the path thinned. */
  lemma SpacedSnoc(pts: seq<Point>, p: Point)
    requires Spaced(pts) && |pts| > 0
    requires DistSq(pts[|pts| - 1], p) >= MinDistance * MinDistance
    ensures Spaced(pts + [p])
  {
    var q := pts + [p];
    forall i | 0 < i < |q|
      ensures DistSq(q[i - 1], q[i]) >= MinDistance * MinDistance
    {
      if i < |pts| {
        assert q[i - 1] == pts[i - 1] && q[i] == pts[i];
      }
    }
  }

  /** `updateBoundingBox`'s accumulator loop. */
  method Extents(pts: seq<Point>) returns (ext: Extent)
    requires |pts| > 0
    ensures ext == PointExtent(pts)
  {
    var minX, minY, maxX, maxY := pts[0].x, pts[0].y, pts[0].x, pts[0].y;
    var i := 0;
    while i < |pts|
      invariant 0 <= i <= |pts|
      invariant Extent(minX, minY, maxX, maxY) == PointExtent(pts[..if i == 0 then 1 else i])
    {
      assert pts[..i + 1][..i] == pts[..i];
      minX := Min(minX, pts[i].x);
      minY := Min(minY, pts[i].y);
      maxX := Max(maxX, pts[i].x);
      maxY := Max(maxY, pts[i].y);
      i := i + 1;
    }
    assert pts[..i] == pts;
    ext := Extent(minX, minY, maxX, maxY);
  }

  class DrawTool {
    var isDrawing: bool
    var points: seq<Point>
    var previewElement: Option<Element>
    var lastPoint: Option<Point>

    /** While drawing, the path is non-empty and thinned, the last recorded point is its end,
        and the preview carries the path; when idle everything is cleared. */
    ghost predicate Valid()
      reads this
    {
      && (isDrawing ==>
            && |points| > 0 && previewElement.Some? && lastPoint == Some(points[|points| - 1])
            && previewElement.value.points == points && Spaced(points))
      && (!isDrawing ==> points == [] && previewElement == None && lastPoint == None)
    }

    constructor()
      ensures !isDrawing && Valid()
    {
      isDrawing := false;
      points := [];
      previewElement := None;
      lastPoint := None;
    }

    method Reset()
      modifies this
      ensures !isDrawing && points == [] && previewElement == None && lastPoint == None
      ensures Valid()
    {
      isDrawing := false;
      points := [];
      previewElement := None;
      lastPoint := None;
    }

    /** Mouse-down starts the path with exactly the press point. */
    method OnMouseDown(ctx: Context, p: Point, seed: int)
      modifies this
      ensures isDrawing && points == [p] && lastPoint == Some(p) && Valid()
      ensures previewElement == Some(Blank("preview", "draw").(
        points := [p], stroke := ctx.style.stroke, strokeWidth := ctx.style.strokeWidth,
        opacity := ctx.style.opacity, roughness := 1.0, seed := seed, x := p.x, y := p.y))
    {
      isDrawing := true;
      points := [p];
      lastPoint := Some(p);
      previewElement := Some(Blank("preview", "draw").(
        points := [p], stroke := ctx.style.stroke, strokeWidth := ctx.style.strokeWidth,
        opacity := ctx.style.opacity, roughness := 1.0, seed := seed, x := p.x, y := p.y));
    }

    /** `updateBoundingBox`: the preview's box becomes the padded box of the path. */
    method UpdateBoundingBox()
      requires previewElement.Some?
      modifies this
      ensures isDrawing == old(isDrawing) && points == old(points) && lastPoint == old(lastPoint)
      ensures previewElement.Some?
      ensures |points| == 0 ==> previewElement == old(previewElement)
      ensures |points| > 0 ==>
        var pe := old(previewElement).value;
        var b := StrokeBox(points, pe.strokeWidth);
        previewElement == Some(pe.(x := b.x, y := b.y, width := b.width, height := b.height))
    {
      if |points| == 0 {
        return;
      }
      var ext := Extents(points);
      var pe := previewElement.value;
      var pad := NumOr(pe.strokeWidth, 2.0) / 2.0;
      previewElement := Some(pe.(x := ext.minX - pad, y := ext.minY - pad,
                                 width := ext.maxX - ext.minX + pad * 2.0,
                                 height := ext.maxY - ext.minY + pad * 2.0));
    }

    /** Mouse-move appends the point exactly when it is at least 2 from the last recorded
        point; recorded points are never removed during a gesture. */
    method OnMouseMove(p: Point)
      requires Valid()
      modifies this
      ensures Valid() && isDrawing == old(isDrawing)
      ensures old(isDrawing) && DistSq(p, old(lastPoint).value) >= MinDistance * MinDistance ==>
        points == old(points) + [p] && lastPoint == Some(p)
        && previewElement.value.points == points
        && BoxOf(previewElement.value) == StrokeBox(points, previewElement.value.strokeWidth)
      ensures !(old(isDrawing) && DistSq(p, old(lastPoint).value) >= MinDistance * MinDistance) ==>
        points == old(points) && lastPoint == old(lastPoint)
        && previewElement == old(previewElement)
    {
      if !isDrawing || lastPoint.None? {
        return;
      }
      if DistSq(p, lastPoint.value) >= MinDistance * MinDistance {
        DistSqSymmetric(p, lastPoint.value);
        SpacedSnoc(points, p);
        points := points + [p];
        lastPoint := Some(p);
        previewElement := Some(previewElement.value.(points := points));
        UpdateBoundingBox();
      }
    }

    /** Mouse-up adds the stroke, with exactly the recorded points, when there are at least two
        of them, commits once, and always resets. */
    method OnMouseUp(ctx: Context, freshId: string)
      requires Valid() && ctx.Valid()
      modifies this, ctx
      ensures !isDrawing && points == [] && previewElement == None && Valid() && ctx.Valid()
      ensures old(isDrawing) && |old(points)| >= 2 ==>
        var pe := old(previewElement).value;
        var b := StrokeBox(old(points), pe.strokeWidth);
        var e := pe.(id := freshId, points := old(points),
                     x := b.x, y := b.y, width := b.width, height := b.height);
        && ctx.elements == (if ctx.hasCanvas then old(ctx.elements) + [e] else old(ctx.elements))
        && ctx.committed == (if ctx.hasCanvas then old(ctx.committed) + [ctx.elements]
                             else old(ctx.committed))
      ensures !(old(isDrawing) && |old(points)| >= 2) ==>
        ctx.elements == old(ctx.elements) && ctx.committed == old(ctx.committed)
      ensures ctx.hasCanvas == old(ctx.hasCanvas) && ctx.selected == old(ctx.selected)
      ensures ctx.clipboard == old(ctx.clipboard) && ctx.currentTool == old(ctx.currentTool)
    {
      if !isDrawing || previewElement.None? {
        Reset();
        return;
      }
      if |points| >= 2 {
        UpdateBoundingBox();
        var e := previewElement.value.(id := freshId, points := points);
        ctx.AddElement(e);
        ctx.CommitChanges();
      }
      Reset();
    }

    /** Escape while drawing clears the path, the preview and the last point. */
    method OnKeyDown(key: string)
      requires Valid()
      modifies this
      ensures Valid()
      ensures key == "Escape" && old(isDrawing) ==>
        !isDrawing && points == [] && previewElement == None && lastPoint == None
      ensures !(key == "Escape" && old(isDrawing)) ==>
        isDrawing == old(isDrawing) && points == old(points)
        && previewElement == old(previewElement) && lastPoint == old(lastPoint)
    {
      if key == "Escape" && isDrawing {
        Reset();
      }
    }
  }
}
