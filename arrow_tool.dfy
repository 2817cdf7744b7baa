/** The arrow tool: press at the tail, drag the head, release to keep the arrow when it is
    longer than 5.  The kept element stores both endpoints and, for the selection and eraser
    tools, the box they span. */
module ArrowTool {
  import opened Base
  import opened Types
  import opened Geometry
  import opened ToolContext

  /** The shortest arrow that is kept. */
  const MinLength: real := 5.0

  function Tail(e: Ends): Point { Point(e.x1, e.y1) }
  function Head(e: Ends): Point { Point(e.x2, e.y2) }

  /** The preview created on mouse-down: both endpoints at the press point, an arrowhead at
      the end, in the current stroke style.  It has no box of its own yet. */
  function PreviewAt(p: Point, style: Style, seed: int): (e: Element)
    ensures e.id == "preview" && e.kind == "arrow" && e.arrowType == "end"
    ensures e.ends == Some(Ends(p.x, p.y, p.x, p.y))
    ensures e.stroke == style.stroke && e.strokeWidth == style.strokeWidth
    ensures e.opacity == style.opacity && e.roughness == 1.0 && e.seed == seed
  {
    Blank("preview", "arrow").(ends := Some(Ends(p.x, p.y, p.x, p.y)), stroke := style.stroke,
                               strokeWidth := style.strokeWidth, opacity := style.opacity,
                               roughness := 1.0, seed := seed, arrowType := "end")
  }

  /** `length > 5`, compared on squares. */
  predicate LongEnough(e: Ends)
  {
    DistSq(Tail(e), Head(e)) > MinLength * MinLength
  }

  /** The element added on release: the preview under a fresh id, with the box spanned by
      its endpoints. */
  function Finished(preview: Element, freshId: string): (r: Element)
    requires preview.ends.Some?
    ensures r.id == freshId && r.ends == preview.ends
    ensures BoxOf(r) == Span(Tail(preview.ends.value), Head(preview.ends.value))
    ensures r == preview.(id := freshId, x := r.x, y := r.y, width := r.width, height := r.height)
  {
    var e := preview.ends.value;
    var b := Span(Tail(e), Head(e));
    preview.(id := freshId, x := b.x, y := b.y, width := b.width, height := b.height)
  }

  /** The kept arrow's box is x = min(x1, x2), y = min(y1, y2), width = |x2 - x1|,
      height = |y2 - y1|, and both endpoints lie in it. */
  lemma FinishedBox(preview: Element, freshId: string)
    requires preview.ends.Some?
    ensures var r := Finished(preview, freshId); var e := preview.ends.value;
      && r.x == Min(e.x1, e.x2) && r.y == Min(e.y1, e.y2)
      && r.width == Abs(e.x2 - e.x1) && r.height == Abs(e.y2 - e.y1)
      && InBox(Tail(e), BoxOf(r)) && InBox(Head(e), BoxOf(r))
  {
    var e := preview.ends.value;
    SpanProperties(Tail(e), Head(e), Span(Tail(e), Head(e)));
    SpanSize(Tail(e), Head(e));
  }

  /** An arrow whose endpoints differ by more than 5 along one axis is always long enough,
      and one that stays within 3 on both axes never is. */
  lemma LengthThreshold(e: Ends)
    ensures Abs(e.x2 - e.x1) > 5.0 || Abs(e.y2 - e.y1) > 5.0 ==> LongEnough(e)
    ensures Abs(e.x2 - e.x1) <= 3.0 && Abs(e.y2 - e.y1) <= 3.0 ==> !LongEnough(e)
  {
    var dx := e.x1 - e.x2;
    var dy := e.y1 - e.y2;
    assert DistSq(Tail(e), Head(e)) == dx * dx + dy * dy;
    if Abs(dx) > 5.0 {
      assert dx * dx > 25.0 by {
        if dx > 0.0 { assert dx * dx > 5.0 * dx; } else { assert dx * dx > -5.0 * dx; }
      }
    }
    if Abs(dy) > 5.0 {
      assert dy * dy > 25.0 by {
        if dy > 0.0 { assert dy * dy > 5.0 * dy; } else { assert dy * dy > -5.0 * dy; }
      }
    }
    if Abs(dx) <= 3.0 && Abs(dy) <= 3.0 {
      assert dx * dx <= 9.0 by {
        if dx >= 0.0 { assert dx * dx <= 3.0 * dx; } else { assert dx * dx <= -3.0 * dx; }
      }
      assert dy * dy <= 9.0 by {
        if dy >= 0.0 { assert dy * dy <= 3.0 * dy; } else { assert dy * dy <= -3.0 * dy; }
      }
    }
  }

  class ArrowTool {
    var isDrawing: bool
    var startPoint: Option<Point>
    var previewElement: Option<Element>

    /** While drawing, the preview has endpoints and its tail is the press point. */
    ghost predicate Valid()
      reads this
    {
      && isDrawing == startPoint.Some? == previewElement.Some?
      && (isDrawing ==> previewElement.value.ends.Some?
                        && Tail(previewElement.value.ends.value) == startPoint.value)
    }

    constructor()
      ensures !isDrawing && startPoint == None && previewElement == None && Valid()
    {
      isDrawing := false;
      startPoint := None;
      previewElement := None;
    }

    method Reset()
      modifies this
      ensures !isDrawing && startPoint == None && previewElement == None && Valid()
    {
      isDrawing := false;
      startPoint := None;
      previewElement := None;
    }

    method OnMouseDown(ctx: Context, p: Point, seed: int)
      modifies this
      ensures isDrawing && startPoint == Some(p)
      ensures previewElement == Some(PreviewAt(p, ctx.style, seed)) && Valid()
    {
      isDrawing := true;
      startPoint := Some(p);
      previewElement := Some(PreviewAt(p, ctx.style, seed));
    }

    /** Mouse-move moves only the head; the tail stays at the press point. */
    method OnMouseMove(p: Point)
      requires Valid()
      modifies this
      ensures Valid() && isDrawing == old(isDrawing) && startPoint == old(startPoint)
      ensures !old(isDrawing) ==> previewElement == old(previewElement)
      ensures old(isDrawing) ==>
        var pe := old(previewElement).value;
        previewElement == Some(pe.(ends := Some(pe.ends.value.(x2 := p.x, y2 := p.y))))
    {
      if !isDrawing || startPoint.None? {
        return;
      }
      var pe := previewElement.value;
      previewElement := Some(pe.(ends := Some(pe.ends.value.(x2 := p.x, y2 := p.y))));
    }

    /** Mouse-up keeps an arrow longer than 5 (added and committed once), and always resets;
        mouse-up while idle adds nothing. */
    method OnMouseUp(ctx: Context, freshId: string)
      requires Valid() && ctx.Valid()
      modifies this, ctx
      ensures !isDrawing && startPoint == None && previewElement == None && Valid()
      ensures ctx.Valid()
      ensures old(isDrawing) && LongEnough(old(previewElement).value.ends.value) ==>
        && ctx.elements == (if ctx.hasCanvas
                            then old(ctx.elements) + [Finished(old(previewElement).value, freshId)]
                            else old(ctx.elements))
        && ctx.committed == (if ctx.hasCanvas then old(ctx.committed) + [ctx.elements]
                             else old(ctx.committed))
      ensures !(old(isDrawing) && LongEnough(old(previewElement).value.ends.value)) ==>
        ctx.elements == old(ctx.elements) && ctx.committed == old(ctx.committed)
      ensures ctx.hasCanvas == old(ctx.hasCanvas) && ctx.selected == old(ctx.selected)
      ensures ctx.clipboard == old(ctx.clipboard) && ctx.currentTool == old(ctx.currentTool)
    {
      if !isDrawing || previewElement.None? {
        Reset();
        return;
      }
      var preview := previewElement.value;
      if LongEnough(preview.ends.value) {
        ctx.AddElement(Finished(preview, freshId));
        ctx.CommitChanges();
      }
      Reset();
    }

    /** Escape while drawing discards the gesture without adding anything. */
    method OnKeyDown(key: string)
      requires Valid()
      modifies this
      ensures Valid()
      ensures key == "Escape" && old(isDrawing) ==> !isDrawing && previewElement == None
      ensures !(key == "Escape" && old(isDrawing)) ==>
        isDrawing == old(isDrawing) && startPoint == old(startPoint)
        && previewElement == old(previewElement)
    {
      if key == "Escape" && isDrawing {
        Reset();
      }
    }
  }
}
