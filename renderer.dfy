/** What the renderer decides, as opposed to how it paints: the visible part of the canvas,
    which elements are drawn and in what order, the stroke options handed to the sketching
    library, an arrow's endpoints and heads, and the curve commands of a freehand stroke. */
module Renderer {
  import opened Base
  import opened Types
  import opened Geometry
  import opened Strings

  // ---------------------------------------------------------------- viewport and culling

  /** `getViewportBounds(scrollX, scrollY, width, height, zoom)`: the canvas-space rectangle
      the screen shows. */
  function ViewportBounds(sx: real, sy: real, w: real, h: real, z: real): (v: Extent)
    requires z != 0.0
    ensures z > 0.0 && w >= 0.0 ==> v.minX <= v.maxX
    ensures z > 0.0 && h >= 0.0 ==> v.minY <= v.maxY
  {
    assert (w - sx) / z == -sx / z + w / z;
    assert (h - sy) / z == -sy / z + h / z;
    Extent(-sx / z, -sy / z, (w - sx) / z, (h - sy) / z)
  }

  /** The viewport's corners are the canvas points under the screen's top-left corner and
      under its bottom-right corner. */
  lemma ViewportCorners(sx: real, sy: real, w: real, h: real, z: real)
    requires z != 0.0
    ensures var v := ViewportBounds(sx, sy, w, h, z);
      && Point(v.minX, v.minY) == ToCanvas(Point(0.0, 0.0), Point(0.0, 0.0), sx, sy, z)
      && Point(v.maxX, v.maxY) == ToCanvas(Point(w, h), Point(0.0, 0.0), sx, sy, z)
  {
    assert (0.0 - 0.0 - sx) / z == -sx / z;
    assert (0.0 - 0.0 - sy) / z == -sy / z;
  }

  /** The culling test: the element's box is not wholly left of, right of, above or below
      the viewport (touching an edge counts as visible). */
  predicate IsVisible(e: Element, v: Extent)
  {
    !(e.x + e.width < v.minX || e.x > v.maxX || e.y + e.height < v.minY || e.y > v.maxY)
  }

  predicate InView(p: Point, v: Extent)
  {
    v.minX <= p.x <= v.maxX && v.minY <= p.y <= v.maxY
  }

  /** For a box of non-negative size and a non-empty viewport, the culling test keeps
      exactly the elements that share at least one point with the viewport. */
  lemma VisibleIffOverlaps(e: Element, v: Extent)
    requires e.width >= 0.0 && e.height >= 0.0 && v.minX <= v.maxX && v.minY <= v.maxY
    ensures IsVisible(e, v) <==> exists p :: InBox(p, BoxOf(e)) && InView(p, v)
  {
    if IsVisible(e, v) {
      var p := Point(Max(e.x, v.minX), Max(e.y, v.minY));
      assert InBox(p, BoxOf(e)) && InView(p, v);
    }
  }

  /** Whether `renderElements` hands an element on: not the one being edited (an empty id
      edits nothing), and visible when a viewport is given. */
  predicate Shown(e: Element, editingId: string, viewport: Option<Extent>)
  {
    !(editingId != "" && e.id == editingId) && (viewport.None? || IsVisible(e, viewport.value))
  }

  /** The elements drawn, in list order. */
  function DrawList(els: seq<Element>, editingId: string, viewport: Option<Extent>): (r: seq<Element>)
    ensures |r| <= |els|
  {
    if els == [] then []
    else (if Shown(els[0], editingId, viewport) then [els[0]] else []) + DrawList(els[1..], editingId, viewport)
  }

  /** An element is drawn exactly when it is in the list and shown. */
  lemma {:induction false} DrawListMembers(els: seq<Element>, editingId: string, viewport: Option<Extent>)
    ensures forall e :: e in DrawList(els, editingId, viewport) <==> e in els && Shown(e, editingId, viewport)
  {
    if els != [] {
      DrawListMembers(els[1..], editingId, viewport);
      assert forall e :: e in els <==> e == els[0] || e in els[1..];
    }
  }

  /** The edited element is never drawn; without culling every other element is drawn, in
      list order. */
  lemma {:induction false} DrawListEditing(els: seq<Element>, editingId: string)
    requires editingId != ""
    ensures DrawList(els, editingId, None) == Filter(els, editingId)
  {
    if els != [] {
      DrawListEditing(els[1..], editingId);
    }
  }

  /** The elements whose id is not `id`, in order. */
  function Filter(els: seq<Element>, id: string): seq<Element>
  {
    if els == [] then [] else (if els[0].id == id then [] else [els[0]]) + Filter(els[1..], id)
  }

  /** Appending an element appends it to the draw list when it is shown. */
  lemma {:induction false} DrawListSnoc(els: seq<Element>, e: Element, editingId: string,
                                        viewport: Option<Extent>)
    ensures DrawList(els + [e], editingId, viewport)
      == DrawList(els, editingId, viewport) + (if Shown(e, editingId, viewport) then [e] else [])
  {
    if els == [] {
      assert [e][1..] == [];
    } else {
      var t := els + [e];
      assert t[0] == els[0] && t[1..] == els[1..] + [e];
      DrawListSnoc(els[1..], e, editingId, viewport);
      var head := if Shown(els[0], editingId, viewport) then [els[0]] else [];
      var rest := DrawList(els[1..], editingId, viewport);
      var last := if Shown(e, editingId, viewport) then [e] else [];
      assert DrawList(t, editingId, viewport) == head + (rest + last);
      ConcatAssoc(head, rest, last);
    }
  }

  /** `renderElements`: the loop over the elements, returning those it hands to
      `renderElement`, in the order it hands them on. */
  method RenderElements(els: seq<Element>, editingId: string, viewport: Option<Extent>)
    returns (drawn: seq<Element>)
    ensures drawn == DrawList(els, editingId, viewport)
  {
    drawn := [];
    if |els| == 0 {
      return;
    }
    var i := 0;
    while i < |els|
      invariant 0 <= i <= |els|
      invariant drawn == DrawList(els[..i], editingId, viewport)
    {
      assert els[..i + 1] == els[..i] + [els[i]];
      DrawListSnoc(els[..i], els[i], editingId, viewport);
      if Shown(els[i], editingId, viewport) {
        drawn := drawn + [els[i]];
      }
      i := i + 1;
    }
    assert els[..i] == els;
  }

  // ---------------------------------------------------------------- per-element drawing

  /** What `renderElement` draws for an element, by its type. */
  datatype Shape = RectShape | EllipseShape | LineShape | FreehandShape | TextShape | NoShape

  function ShapeOf(e: Element): (s: Shape)
    ensures s == NoShape <==>
      (e.kind !in {"rectangle", "ellipse", "arrow", "line", "draw", "freedraw", "text"})
      || ((e.kind == "draw" || e.kind == "freedraw") && |e.points| < 2)
      || (e.kind == "text" && e.text == "")
  {
    match e.kind
    case "rectangle" => RectShape
    case "ellipse" => EllipseShape
    case "arrow" => LineShape
    case "line" => LineShape
    case "draw" => if |e.points| < 2 then NoShape else FreehandShape
    case "freedraw" => if |e.points| < 2 then NoShape else FreehandShape
    case "text" => if e.text == "" then NoShape else TextShape
    case _ => NoShape
  }

  /** The options handed to the sketching library. */
  datatype RoughOptions = RoughOptions(
    stroke: string, strokeWidth: real, fill: Option<string>, fillStyle: string,
    roughness: real, bowing: real, seed: int, dashed: bool, fillWeight: real)

  /** `getRoughOptions`.  Fill style, bowing, dash style and fill weight are not element
      properties here, so they always take their defaults.  The fill is passed on as it is:
      an absent fill (the empty string here) stays undefined, and a 'transparent' fill
      becomes undefined too, so in both cases nothing is filled. */
  function RoughOptionsOf(e: Element): (o: RoughOptions)
    ensures o.stroke != "" && o.strokeWidth != 0.0 && o.roughness != 0.0 && o.seed != 0
    ensures e.stroke != "" ==> o.stroke == e.stroke
    ensures e.strokeWidth != 0.0 ==> o.strokeWidth == e.strokeWidth
    ensures o.fill.Some? <==> e.fill != "transparent" && e.fill != ""
    ensures o.fill.Some? ==> o.fill.value == e.fill
  {
    RoughOptions(StrOr(e.stroke, "#000000"), NumOr(e.strokeWidth, 2.0),
                 if e.fill == "transparent" || e.fill == "" then None else Some(e.fill),
                 "hachure", NumOr(e.roughness, 1.0), 1.0,
                 if e.seed != 0 then e.seed else 1, false, 0.5)
  }

  /** An element with no style of its own is drawn black, 2 wide, with roughness 1 and seed
      1, and it is not filled. */
  lemma RoughDefaults(id: string, kind: string)
    ensures RoughOptionsOf(Blank(id, kind))
      == RoughOptions("#000000", 2.0, None, "hachure", 1.0, 1.0, 1, false, 0.5)
  {
  }

  // ---------------------------------------------------------------- text

  /** The font `renderText` sets: weight ('normal' when absent), size in screen pixels (16
      when absent, times the zoom) and family ('sans-serif' when absent). */
  datatype Font = Font(weight: string, size: real, family: string)

  function FontOf(e: Element, zoom: real): (f: Font)
    ensures f.weight != "" && f.family != ""
    ensures f.size == (if e.fontSize != 0.0 then e.fontSize else 16.0) * zoom
  {
    Font(StrOr(e.fontWeight, "normal"), NumOr(e.fontSize, 16.0) * zoom,
         StrOr(e.fontFamily, "sans-serif"))
  }

  /** The lines of a text placed from `y` down, `lineHeight` apart. */
  function Stack(lines: seq<string>, y: real, lineHeight: real): (r: seq<(string, real)>)
    ensures |r| == |lines|
    ensures forall i :: 0 <= i < |r| ==> r[i] == (lines[i], y + (i as real) * lineHeight)
    decreases |lines|
  {
    if lines == [] then []
    else
      var rest := Stack(lines[1..], y + lineHeight, lineHeight);
      var r := [(lines[0], y)] + rest;
      assert forall i :: 1 <= i < |r| ==> r[i] == rest[i - 1];
      r
  }

  /** What `renderText` writes: nothing for an empty text; otherwise each line of the text,
      left to right in order, at the element's top edge plus its index times 1.2 font
      sizes. */
  function TextLines(e: Element, zoom: real): (r: seq<(string, real)>)
    ensures e.text == "" ==> r == []
    ensures e.text != "" ==> |r| == Count(e.text, '\n') + 1
    ensures forall i :: 0 <= i < |r| ==>
      r[i].1 == e.y + (i as real) * (FontOf(e, zoom).size * 1.2) && '\n' !in r[i].0
  {
    if e.text == "" then []
    else
      SplitLength(e.text, '\n');
      SplitPiecesFree(e.text, '\n');
      Stack(Split(e.text, '\n'), e.y, FontOf(e, zoom).size * 1.2)
  }

  /** No character of the text is lost: joining the written lines with line breaks gives the
      text back. */
  lemma TextLinesJoin(e: Element, zoom: real)
    requires e.text != ""
    ensures var r := TextLines(e, zoom);
      |r| >= 1 && Join(seq(|r|, i requires 0 <= i < |r| => r[i].0), '\n') == e.text
  {
    var r := TextLines(e, zoom);
    assert seq(|r|, i requires 0 <= i < |r| => r[i].0) == Split(e.text, '\n');
    JoinSplit(e.text, '\n');
  }

  // ---------------------------------------------------------------- arrows

  /** The segment an arrow is drawn along: its stored endpoints when it has them, else the
      diagonal of its box from the top-left corner. */
  function ArrowEndpoints(e: Element): (r: (Point, Point))
    ensures e.ends.Some? ==> r == (Point(e.ends.value.x1, e.ends.value.y1),
                                   Point(e.ends.value.x2, e.ends.value.y2))
    ensures e.ends.None? ==> r == (Point(e.x, e.y), Point(e.x + e.width, e.y + e.height))
  {
    match e.ends
    case Some(en) => (Point(en.x1, en.y1), Point(en.x2, en.y2))
    case None => (Point(e.x, e.y), Point(e.x + e.width, e.y + e.height))
  }

  /** Both endpoints always lie in the element's box when the box is the one spanned by the
      endpoints (as it is for every arrow the arrow tool adds), or when the arrow has no
      endpoints and a box of non-negative size. */
  lemma ArrowEndpointsInBox(e: Element)
    requires e.ends.Some? ==> BoxOf(e) == Span(Point(e.ends.value.x1, e.ends.value.y1),
                                                Point(e.ends.value.x2, e.ends.value.y2))
    requires e.ends.None? ==> e.width >= 0.0 && e.height >= 0.0
    ensures InBox(ArrowEndpoints(e).0, BoxOf(e)) && InBox(ArrowEndpoints(e).1, BoxOf(e))
  {
    if e.ends.Some? {
      var a := Point(e.ends.value.x1, e.ends.value.y1);
      var b := Point(e.ends.value.x2, e.ends.value.y2);
      SpanProperties(a, b, Span(a, b));
    }
  }

  /** Which heads an arrow gets: `arrowType` defaults to 'end'; 'start' and 'both' draw a head
      at the first endpoint, 'end' and 'both' one at the second. */
  function Heads(arrowType: string): (r: (bool, bool))
    ensures r.0 <==> arrowType == "start" || arrowType == "both"
    ensures r.1 <==> arrowType == "end" || arrowType == "both" || arrowType == ""
  {
    var t := StrOr(arrowType, "end");
    (t == "start" || t == "both", t == "end" || t == "both")
  }

  /** The heads drawn for an arrow, each as the segment it points along: the tip is the
      second point. */
  function HeadSegments(e: Element): (r: seq<(Point, Point)>)
    ensures |r| <= 2
    ensures forall s :: s in r ==> s.1 == ArrowEndpoints(e).0 || s.1 == ArrowEndpoints(e).1
    ensures Heads(e.arrowType).0 ==> (ArrowEndpoints(e).1, ArrowEndpoints(e).0) in r
    ensures Heads(e.arrowType).1 ==> (ArrowEndpoints(e).0, ArrowEndpoints(e).1) in r
    ensures ArrowEndpoints(e).0 != ArrowEndpoints(e).1 ==>
      && (Heads(e.arrowType).0 <==> (ArrowEndpoints(e).1, ArrowEndpoints(e).0) in r)
      && (Heads(e.arrowType).1 <==> (ArrowEndpoints(e).0, ArrowEndpoints(e).1) in r)
      && |r| == (if Heads(e.arrowType).0 then 1 else 0) + (if Heads(e.arrowType).1 then 1 else 0)
  {
    var (a, b) := ArrowEndpoints(e);
    var h := Heads(e.arrowType);
    (if h.0 then [(b, a)] else []) + (if h.1 then [(a, b)] else [])
  }

  /** The length of an arrowhead: five times the stroke width (2 when absent), at least 10. */
  function HeadLength(strokeWidth: real): (r: real)
    ensures r >= 10.0 && r >= 5.0 * NumOr(strokeWidth, 2.0)
    ensures r == 10.0 || r == 5.0 * NumOr(strokeWidth, 2.0)
  {
    Max(10.0, NumOr(strokeWidth, 2.0) * 5.0)
  }

  /** Strokes up to 2 wide get the minimum head; wider ones grow with the width. */
  lemma HeadLengthGrows(a: real, b: real)
    requires 0.0 < a <= b
    ensures HeadLength(a) <= HeadLength(b)
    ensures a <= 2.0 ==> HeadLength(a) == 10.0
  {
  }

  // ---------------------------------------------------------------- freehand strokes

  /** A path command: start a subpath at a point, or draw a quadratic Bézier curve to `to`
      with control point `control` (the `M` and `Q` commands of section 8.3 of SVG 1.1, and
      the canvas calls `moveTo` and `quadraticCurveTo`). */
  datatype PathCmd = Start(at: Point) | Curve(control: Point, to: Point)

  function Mid(a: Point, b: Point): Point
  {
    Point((a.x + b.x) / 2.0, (a.y + b.y) / 2.0)
  }

  /** The curves through the interior points from index `i` on: each interior point is the
      control point of a curve ending midway to the next point. */
  function Interior(pts: seq<Point>, i: nat): (r: seq<PathCmd>)
    requires 1 <= i && |pts| >= 2
    decreases |pts| - i
    ensures |r| == if i < |pts| - 1 then |pts| - 1 - i else 0
    ensures forall k {:trigger r[k]} :: 0 <= k < |r| ==> r[k] == Curve(pts[i + k], Mid(pts[i + k], pts[i + k + 1]))
  {
    if i >= |pts| - 1 then []
    else [Curve(pts[i], Mid(pts[i], pts[i + 1]))] + Interior(pts, i + 1)
  }

  /** A stroke's path: nothing for fewer than 2 points; otherwise a move to the first point,
      one curve per interior point, and a final curve to the last point controlled by the
      one before it. */
  function FreehandPath(pts: seq<Point>): (r: seq<PathCmd>)
    ensures |pts| < 2 ==> r == []
    ensures |pts| >= 2 ==>
      && |r| == |pts|
      && r[0] == Start(pts[0])
      && r[|r| - 1] == Curve(pts[|pts| - 2], pts[|pts| - 1])
      && forall k {:trigger r[k]} :: 1 <= k < |pts| - 1 ==> r[k] == Curve(pts[k], Mid(pts[k], pts[k + 1]))
  {
    if |pts| < 2 then []
    else [Start(pts[0])] + Interior(pts, 1) + [Curve(pts[|pts| - 2], pts[|pts| - 1])]
  }

  /** Every curve ends where the next one's control segment starts: the path is continuous
      through the midpoints, and it ends exactly at the stroke's last point. */
  lemma FreehandPathEnds(pts: seq<Point>)
    requires |pts| >= 2
    ensures var r := FreehandPath(pts); r[|r| - 1].Curve? && r[|r| - 1].to == pts[|pts| - 1]
    ensures forall k :: 1 <= k < |pts| - 1 ==> FreehandPath(pts)[k].to == Mid(pts[k], pts[k + 1])
  {
  }

  /** `renderFreeDraw`'s loop, returning the path commands it issues. */
  method FreehandSegments(pts: seq<Point>) returns (cmds: seq<PathCmd>)
    ensures cmds == FreehandPath(pts)
  {
    if |pts| < 2 {
      return [];
    }
    cmds := [Start(pts[0])];
    var i := 1;
    while i < |pts| - 1
      invariant 1 <= i <= |pts| - 1
      invariant cmds == [Start(pts[0])] + Interior(pts, 1)[..i - 1]
    {
      assert Interior(pts, 1)[..i] == Interior(pts, 1)[..i - 1] + [Interior(pts, 1)[i - 1]];
      cmds := cmds + [Curve(pts[i], Mid(pts[i], pts[i + 1]))];
      i := i + 1;
    }
    assert Interior(pts, 1)[..i - 1] == Interior(pts, 1);
    cmds := cmds + [Curve(pts[|pts| - 2], pts[|pts| - 1])];
  }
}
