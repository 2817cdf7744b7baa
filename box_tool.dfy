/** The rectangle and ellipse tools.  Both are the same press-drag-release state machine over
    the fields `isDrawing`, `startPoint` and `previewElement`, differing only in the element
    type they create, so one class parameterised by that type models both. */
module BoxTool {
  import opened Base
  import opened Types
  import opened Geometry
  import opened ToolContext

  /** The smallest size, in either dimension, for a drawn box to be kept. */
  const MinCommitSize: real := 5.0

  /** The preview created on mouse-down: a zero-size box at the press point in the current
      style, with roughness 1 and the given random seed. */
  function PreviewAt(kind: string, p: Point, style: Style, seed: int): (e: Element)
    ensures e.id == "preview" && e.kind == kind && e.x == p.x && e.y == p.y
    ensures e.width == 0.0 && e.height == 0.0 && e.roughness == 1.0 && e.seed == seed
    ensures e.stroke == style.stroke && e.fill == style.fill
    ensures e.strokeWidth == style.strokeWidth && e.opacity == style.opacity
  {
    Blank("preview", kind).(x := p.x, y := p.y, stroke := style.stroke, fill := style.fill,
                            strokeWidth := style.strokeWidth, opacity := style.opacity,
                            roughness := 1.0, seed := seed)
  }

  /** The preview while dragging from `start` to `p`: its box becomes the spanned box. */
  function DragTo(preview: Element, start: Point, p: Point): (e: Element)
    ensures BoxOf(e) == Span(start, p)
    ensures e == preview.(x := e.x, y := e.y, width := e.width, height := e.height)
  {
    var b := Span(start, p);
    preview.(x := b.x, y := b.y, width := b.width, height := b.height)
  }

  /** A finished box is kept when it is more than 5 wide or more than 5 high. */
  predicate Keeps(preview: Element)
  {
    preview.width > MinCommitSize || preview.height > MinCommitSize
  }

  /** The render guard's test on a preview: it is drawn only with positive width and height. */
  predicate Shows(preview: Element)
  {
    preview.width > 0.0 && preview.height > 0.0
  }

  /** The preview is not drawn right after the press; after a drag it is drawn exactly when
      the pointer has moved along both axes.  So a flat box, which is kept on release when it
      is more than 5 long, is committed without ever having been drawn as a preview. */
  lemma PreviewShownAfterDrag(kind: string, style: Style, seed: int, start: Point, p: Point)
    ensures !Shows(PreviewAt(kind, start, style, seed))
    ensures Shows(DragTo(PreviewAt(kind, start, style, seed), start, p))
            <==> start.x != p.x && start.y != p.y
    ensures var flat := DragTo(PreviewAt(kind, start, style, seed), start,
                               Point(start.x + 10.0, start.y));
      Keeps(flat) && !Shows(flat)
  {
    SpanSize(start, p);
    SpanSize(start, Point(start.x + 10.0, start.y));
  }

  /** Whatever the direction of the drag, the preview box is the same and has no negative
      size, and it is kept exactly when the pointer moved more than 5 along some axis. */
  lemma DragProperties(preview: Element, start: Point, p: Point)
    ensures DragTo(preview, start, p) == DragTo(preview, p, start)
    ensures BoxOf(DragTo(preview, start, p)) == BoxOf(DragTo(preview, p, start))
    ensures DragTo(preview, start, p).width >= 0.0 && DragTo(preview, start, p).height >= 0.0
    ensures Keeps(DragTo(preview, start, p)) <==> Abs(p.x - start.x) > 5.0 || Abs(p.y - start.y) > 5.0
  {
    SpanProperties(start, p, Span(start, p));
    SpanSize(start, p);
  }

  class ShapeTool {
    const kind: string
    var isDrawing: bool
    var startPoint: Option<Point>
    var previewElement: Option<Element>

    /** Drawing, a start point and a preview always come together. */
    ghost predicate Valid()
      reads this
    {
      isDrawing == startPoint.Some? == previewElement.Some?
    }

    /** `new RectangleTool()` / `new EllipseTool()`, for `kind` "rectangle" or "ellipse". */
    constructor(kind: string)
      ensures this.kind == kind && !isDrawing && startPoint == None && previewElement == None
      ensures Valid()
    {
      this.kind := kind;
      isDrawing := false;
      startPoint := None;
      previewElement := None;
    }

    method Reset()
      modifies this
      ensures !isDrawing && startPoint == None && previewElement == None && Valid()
    {
      isDrawing := false;
      startPoint := None;
      previewElement := None;
    }

    method OnMouseDown(ctx: Context, p: Point, seed: int)
      modifies this
      ensures isDrawing && startPoint == Some(p)
      ensures previewElement == Some(PreviewAt(kind, p, ctx.style, seed)) && Valid()
    {
      isDrawing := true;
      startPoint := Some(p);
      previewElement := Some(PreviewAt(kind, p, ctx.style, seed));
    }

    /** Mouse-move while idle changes nothing; while drawing it stretches the preview. */
    method OnMouseMove(p: Point)
      requires Valid()
      modifies this
      ensures Valid() && isDrawing == old(isDrawing) && startPoint == old(startPoint)
      ensures !old(isDrawing) ==> previewElement == old(previewElement)
      ensures old(isDrawing) ==>
        previewElement == Some(DragTo(old(previewElement).value, startPoint.value, p))
    {
      if !isDrawing || startPoint.None? {
        return;
      }
      previewElement := Some(DragTo(previewElement.value, startPoint.value, p));
    }

    /** Mouse-up adds the preview under a fresh id and commits once when it is big enough,
        and always returns the tool to idle; mouse-up while idle adds nothing. */
    method OnMouseUp(ctx: Context, freshId: string)
      requires Valid() && ctx.Valid()
      modifies this, ctx
      ensures !isDrawing && startPoint == None && previewElement == None && Valid()
      ensures ctx.Valid()
      ensures old(isDrawing) && Keeps(old(previewElement).value) ==>
        && ctx.elements == (if ctx.hasCanvas
                            then old(ctx.elements) + [old(previewElement).value.(id := freshId)]
                            else old(ctx.elements))
        && ctx.committed == (if ctx.hasCanvas then old(ctx.committed) + [ctx.elements]
                             else old(ctx.committed))
      ensures !(old(isDrawing) && Keeps(old(previewElement).value)) ==>
        ctx.elements == old(ctx.elements) && ctx.committed == old(ctx.committed)
      ensures ctx.hasCanvas == old(ctx.hasCanvas) && ctx.selected == old(ctx.selected)
      ensures ctx.clipboard == old(ctx.clipboard) && ctx.currentTool == old(ctx.currentTool)
    {
      if !isDrawing || previewElement.None? {
        Reset();
        return;
      }
      var preview := previewElement.value;
      if Keeps(preview) {
        ctx.AddElement(preview.(id := freshId));
        ctx.CommitChanges();
      }
      Reset();
    }

    /** Escape while drawing discards the gesture; the scene is never touched. */
    method OnKeyDown(key: string)
      requires Valid()
      modifies this
      ensures Valid()
      ensures key == "Escape" && old(isDrawing) ==> !isDrawing && previewElement == None
      ensures !(key == "Escape" && old(isDrawing)) ==>
        isDrawing == old(isDrawing) && startPoint == old(startPoint)
        && previewElement == old(previewElement)
    {
      if key == "Escape" && isDrawing {
        Reset();
      }
    }

    /** The render guard: a preview is drawn only while drawing and with positive size. */
    predicate PreviewShown()
      reads this
    {
      isDrawing && previewElement.Some? && Shows(previewElement.value)
    }
  }
}
