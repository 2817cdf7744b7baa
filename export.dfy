/** The exporter: the bounding box of a scene, where each element lands in the exported
    picture, the SVG node emitted for each element, and the validation and renaming of an
    imported canvas. */
module Export {
  import opened Base
  import opened Types
  import opened Geometry
  import opened Js
  import Renderer
  import ArrowTool

  /** The margin left around the scene on every side. */
  const Padding: real := 20.0

  /** `getCanvasBounds`' result. */
  datatype Bounds = Bounds(minX: real, minY: real, maxX: real, maxY: real, width: real, height: real)

  /** The bounds of an empty scene. */
  const EmptyBounds: Bounds := Bounds(0.0, 0.0, 100.0, 100.0, 100.0, 100.0)

  // ---------------------------------------------------------------- bounds

  /** One step of the min/max fold over the element boxes; nothing seen yet stands for the
      fold's start at plus and minus infinity, which the first box replaces. */
  function TakeIn(acc: Option<Extent>, e: Element): Extent
  {
    match acc
    case None => Extent(e.x, e.y, e.x + e.width, e.y + e.height)
    case Some(ext) => Grow(ext, e.x, e.y, e.x + e.width, e.y + e.height)
  }

  /** The fold over the elements in list order. */
  function ExtentOf(els: seq<Element>): Option<Extent>
    decreases |els|
  {
    if els == [] then None else Some(TakeIn(ExtentOf(els[..|els| - 1]), els[|els| - 1]))
  }

  /** `getCanvasBounds`. */
  function CanvasBounds(els: seq<Element>): Bounds
  {
    match ExtentOf(els)
    case None => EmptyBounds
    case Some(ext) => Bounds(ext.minX, ext.minY, ext.maxX, ext.maxY, ext.maxX - ext.minX, ext.maxY - ext.minY)
  }

  /** Every element's box lies inside the fold's extent. */
  lemma {:induction false} ExtentCovers(els: seq<Element>)
    requires els != []
    ensures ExtentOf(els).Some?
    ensures var ext := ExtentOf(els).value;
      forall i :: 0 <= i < |els| ==>
        ext.minX <= els[i].x && ext.minY <= els[i].y
        && els[i].x + els[i].width <= ext.maxX && els[i].y + els[i].height <= ext.maxY
    decreases |els|
  {
    var init := els[..|els| - 1];
    if init != [] {
      ExtentCovers(init);
      assert forall i :: 0 <= i < |init| ==> init[i] == els[i];
    }
  }

  /** The left and top sides of the extent are attained by some element. */
  lemma {:induction false} ExtentMinAttained(els: seq<Element>)
    requires els != []
    ensures ExtentOf(els).Some?
    ensures var ext := ExtentOf(els).value;
      && (exists i :: 0 <= i < |els| && els[i].x == ext.minX)
      && (exists i :: 0 <= i < |els| && els[i].y == ext.minY)
    decreases |els|
  {
    var init := els[..|els| - 1];
    var n := |els| - 1;
    if init != [] {
      ExtentMinAttained(init);
      var ext := ExtentOf(init).value;
      var a :| 0 <= a < |init| && init[a].x == ext.minX;
      var b :| 0 <= b < |init| && init[b].y == ext.minY;
      assert init[a] == els[a] && init[b] == els[b];
      var r := ExtentOf(els).value;
      assert r.minX == els[a].x || r.minX == els[n].x;
      assert r.minY == els[b].y || r.minY == els[n].y;
    }
  }

  /** The right and bottom sides of the extent are attained by some element. */
  lemma {:induction false} ExtentMaxAttained(els: seq<Element>)
    requires els != []
    ensures ExtentOf(els).Some?
    ensures var ext := ExtentOf(els).value;
      && (exists i :: 0 <= i < |els| && els[i].x + els[i].width == ext.maxX)
      && (exists i :: 0 <= i < |els| && els[i].y + els[i].height == ext.maxY)
    decreases |els|
  {
    var init := els[..|els| - 1];
    var n := |els| - 1;
    if init != [] {
      ExtentMaxAttained(init);
      var ext := ExtentOf(init).value;
      var c :| 0 <= c < |init| && init[c].x + init[c].width == ext.maxX;
      var d :| 0 <= d < |init| && init[d].y + init[d].height == ext.maxY;
      assert init[c] == els[c] && init[d] == els[d];
      var r := ExtentOf(els).value;
      assert r.maxX == els[c].x + els[c].width || r.maxX == els[n].x + els[n].width;
      assert r.maxY == els[d].y + els[d].height || r.maxY == els[n].y + els[n].height;
    }
  }

  /** An empty scene has the fixed 100 by 100 bounds at the origin; any other scene's bounds
      hold every element box, touch one on each side, and have width maxX - minX and
      height maxY - minY. */
  lemma BoundsProperties(els: seq<Element>)
    ensures els == [] ==> CanvasBounds(els) == EmptyBounds
    ensures els != [] ==>
      var b := CanvasBounds(els);
      && b.width == b.maxX - b.minX && b.height == b.maxY - b.minY
      && (forall i :: 0 <= i < |els| ==>
            b.minX <= els[i].x && b.minY <= els[i].y
            && els[i].x + els[i].width <= b.maxX && els[i].y + els[i].height <= b.maxY)
      && (exists i :: 0 <= i < |els| && els[i].x == b.minX)
      && (exists i :: 0 <= i < |els| && els[i].y == b.minY)
      && (exists i :: 0 <= i < |els| && els[i].x + els[i].width == b.maxX)
      && (exists i :: 0 <= i < |els| && els[i].y + els[i].height == b.maxY)
  {
    if els != [] {
      ExtentCovers(els);
      ExtentMinAttained(els);
      ExtentMaxAttained(els);
    }
  }

  /** `getCanvasBounds`' loop, with the running minima and maxima. */
  method GetCanvasBounds(els: seq<Element>) returns (b: Bounds)
    ensures b == CanvasBounds(els)
  {
    if |els| == 0 {
      return EmptyBounds;
    }
    var acc: Option<Extent> := None;
    for i := 0 to |els|
      invariant acc == ExtentOf(els[..i])
    {
      assert els[..i + 1][..i] == els[..i];
      acc := Some(TakeIn(acc, els[i]));
    }
    assert els[..|els|] == els;
    var ext := acc.value;
    b := Bounds(ext.minX, ext.minY, ext.maxX, ext.maxY, ext.maxX - ext.minX, ext.maxY - ext.minY);
  }

  // ---------------------------------------------------------------- placement

  /** Where an element's top-left corner lands in the exported picture. */
  function Place(e: Element, b: Bounds): Point
  {
    Point(e.x - b.minX + Padding, e.y - b.minY + Padding)
  }

  /** The size of the exported picture: the bounds with the margin on every side. */
  function ExportSize(b: Bounds): (real, real)
  {
    (b.width + 2.0 * Padding, b.height + 2.0 * Padding)
  }

  /** Every element of the scene lands inside the picture, at least the margin away from
      each edge. */
  lemma PlacedInFrame(els: seq<Element>, i: nat)
    requires i < |els|
    ensures var b := CanvasBounds(els); var p := Place(els[i], b);
      && Padding <= p.x && p.x + els[i].width <= ExportSize(b).0 - Padding
      && Padding <= p.y && p.y + els[i].height <= ExportSize(b).1 - Padding
  {
    BoundsProperties(els);
  }

  // ---------------------------------------------------------------- SVG nodes

  /** The options handed to Rough.js: a curve gets no fill. */
  datatype RoughStyle = RoughStyle(stroke: string, fill: Option<string>, strokeWidth: real,
                                   roughness: real, seed: int)

  /** The SVG node made for one element. */
  datatype SvgNode =
    | RectNode(at: Point, width: real, height: real, style: RoughStyle)
    | EllipseNode(center: Point, width: real, height: real, style: RoughStyle)
    | CurveNode(points: seq<Point>, style: RoughStyle)
    | PathNode(d: seq<Renderer.PathCmd>, stroke: string, strokeWidth: real)
    | TextNode(at: Point, fontSize: real, fontFamily: string, fill: string, content: string)

  /** A node as written out, with its `opacity` attribute when it has one. */
  datatype Emitted = Emitted(node: SvgNode, opacity: Option<real>)

  function ShapeStyle(e: Element): RoughStyle
  {
    RoughStyle(e.stroke, Some(e.fill), e.strokeWidth, e.roughness, e.seed)
  }

  function LineStyle(e: Element): RoughStyle
  {
    RoughStyle(e.stroke, None, e.strokeWidth, e.roughness, e.seed)
  }

  /** The exported path of a stroke: its points moved by the same offset as the boxes. */
  function StrokePath(pts: seq<Point>, b: Bounds): seq<Renderer.PathCmd>
  {
    Renderer.FreehandPath(Shift(pts, Padding - b.minX, Padding - b.minY))
  }

  /** The node `exportToSVG` makes for an element, by its type: none for an arrow without
      points, a stroke of fewer than 2 points or an unknown type. Arrow points are offset
      by the arrow's placed corner; stroke points by the scene offset. */
  function NodeOf(e: Element, b: Bounds): Option<SvgNode>
  {
    var p := Place(e, b);
    match e.kind
    case "rectangle" => Some(RectNode(p, e.width, e.height, ShapeStyle(e)))
    case "ellipse" =>
      Some(EllipseNode(Point(p.x + e.width / 2.0, p.y + e.height / 2.0), e.width, e.height, ShapeStyle(e)))
    case "arrow" => if |e.points| > 0 then Some(CurveNode(Shift(e.points, p.x, p.y), LineStyle(e))) else None
    case "draw" => if |e.points| > 1 then Some(PathNode(StrokePath(e.points, b), e.stroke, e.strokeWidth)) else None
    case "freedraw" =>
      if |e.points| > 1 then Some(PathNode(StrokePath(e.points, b), e.stroke, e.strokeWidth)) else None
    case "text" => Some(TextNode(Point(p.x, p.y + e.fontSize), e.fontSize, e.fontFamily, e.stroke, e.text))
    case _ => None
  }

  /** Which elements the SVG export shows. */
  predicate Exported(e: Element)
  {
    || e.kind in {"rectangle", "ellipse", "text"}
    || (e.kind == "arrow" && |e.points| > 0)
    || ((e.kind == "draw" || e.kind == "freedraw") && |e.points| > 1)
  }

  /** The `opacity` attribute: the opacity as a fraction, and only when it is not 100. */
  function OpacityAttr(e: Element): Option<real>
  {
    if e.opacity != 100.0 then Some(e.opacity / 100.0) else None
  }

  /** A node is made exactly for the exported elements; a shape node sits at the element's
      placed corner (an ellipse at the centre of its placed box), and a text node one font
      size lower, at its baseline. */
  lemma NodeOfShows(e: Element, b: Bounds)
    ensures NodeOf(e, b).Some? <==> Exported(e)
    ensures e.kind == "rectangle" ==> NodeOf(e, b).value.at == Place(e, b)
    ensures e.kind == "ellipse" ==>
      NodeOf(e, b).value.center == Point(Place(e, b).x + e.width / 2.0, Place(e, b).y + e.height / 2.0)
    ensures e.kind == "text" ==> NodeOf(e, b).value.at == Point(Place(e, b).x, Place(e, b).y + e.fontSize)
  {
  }

  /** The attribute is present exactly when the opacity is not 100, and then lies in [0, 1]
      whenever the opacity is a percentage. */
  lemma OpacityAttrRange(e: Element)
    ensures OpacityAttr(e).None? <==> e.opacity == 100.0
    ensures 0.0 <= e.opacity <= 100.0 && OpacityAttr(e).Some? ==> 0.0 <= OpacityAttr(e).value < 1.0
  {
  }

  /** The nodes written for the elements, in list order. */
  function Emit(els: seq<Element>, b: Bounds): seq<Emitted>
    decreases |els|
  {
    if els == [] then []
    else
      var e := els[|els| - 1];
      Emit(els[..|els| - 1], b)
      + match NodeOf(e, b) case Some(n) => [Emitted(n, OpacityAttr(e))] case None => []
  }

  /** The number of exported elements. */
  function CountExported(els: seq<Element>): nat
    decreases |els|
  {
    if els == [] then 0 else CountExported(els[..|els| - 1]) + if Exported(els[|els| - 1]) then 1 else 0
  }

  /** One node per exported element, each the node of an exported element together with
      that element's opacity attribute. */
  lemma {:induction false} EmitMeaning(els: seq<Element>, b: Bounds)
    ensures |Emit(els, b)| == CountExported(els)
    ensures forall k :: 0 <= k < |Emit(els, b)| ==>
      exists i :: 0 <= i < |els| && Exported(els[i])
        && Emit(els, b)[k] == Emitted(NodeOf(els[i], b).value, OpacityAttr(els[i]))
    decreases |els|
  {
    if els != [] {
      var init := els[..|els| - 1];
      var e := els[|els| - 1];
      EmitMeaning(init, b);
      NodeOfShows(e, b);
      var r := Emit(els, b);
      var r0 := Emit(init, b);
      forall k | 0 <= k < |r|
        ensures exists i :: (0 <= i < |els| && Exported(els[i])
          && r[k] == Emitted(NodeOf(els[i], b).value, OpacityAttr(els[i])))
      {
        if k < |r0| {
          assert r[k] == r0[k];
          var i :| 0 <= i < |init| && Exported(init[i])
            && r0[k] == Emitted(NodeOf(init[i], b).value, OpacityAttr(init[i]));
          assert init[i] == els[i];
        } else {
          assert Exported(els[|els| - 1]);
        }
      }
    }
  }

  /** Moving every point moves every path command by the same amount. */
  function ShiftCmd(c: Renderer.PathCmd, dx: real, dy: real): Renderer.PathCmd
  {
    match c
    case Start(p) => Renderer.Start(Point(p.x + dx, p.y + dy))
    case Curve(q, p) => Renderer.Curve(Point(q.x + dx, q.y + dy), Point(p.x + dx, p.y + dy))
  }

  /** One command of the translated path is the command of the original path, moved. */
  lemma CmdTranslates(pts: seq<Point>, dx: real, dy: real, k: nat)
    requires |pts| >= 2 && k < |pts|
    ensures Renderer.FreehandPath(Shift(pts, dx, dy))[k] == ShiftCmd(Renderer.FreehandPath(pts)[k], dx, dy)
  {
    var q := Shift(pts, dx, dy);
    var r, s := Renderer.FreehandPath(pts), Renderer.FreehandPath(q);
    if k == 0 {
      assert s[k] == Renderer.Start(q[0]) && r[k] == Renderer.Start(pts[0]);
    } else if k < |pts| - 1 {
      var m := Renderer.Mid(pts[k], pts[k + 1]);
      assert Renderer.Mid(q[k], q[k + 1]) == Point(m.x + dx, m.y + dy);
      assert s[k] == Renderer.Curve(q[k], Renderer.Mid(q[k], q[k + 1]));
      assert r[k] == Renderer.Curve(pts[k], m);
    } else {
      assert s[k] == Renderer.Curve(q[k - 1], q[k]) && r[k] == Renderer.Curve(pts[k - 1], pts[k]);
    }
  }

  /** Translating the points translates the path, command for command: the exported stroke
      (`StrokePath`) is the stroke drawn on screen moved by the scene offset. */
  lemma {:induction false} PathTranslates(pts: seq<Point>, dx: real, dy: real)
    ensures |Renderer.FreehandPath(Shift(pts, dx, dy))| == |Renderer.FreehandPath(pts)|
    ensures forall k :: 0 <= k < |Renderer.FreehandPath(pts)| ==>
      Renderer.FreehandPath(Shift(pts, dx, dy))[k] == ShiftCmd(Renderer.FreehandPath(pts)[k], dx, dy)
  {
    var q := Shift(pts, dx, dy);
    var r, s := Renderer.FreehandPath(pts), Renderer.FreehandPath(q);
    assert |q| == |pts|;
    forall k | 0 <= k < |r|
      ensures s[k] == ShiftCmd(r[k], dx, dy)
    {
      CmdTranslates(pts, dx, dy, k);
    }
  }

  /** One point of a stroke as the export writes it. */
  function Moved(p: Point, b: Bounds): Point
  {
    Point(p.x - b.minX + Padding, p.y - b.minY + Padding)
  }

  /** The commands the path loop has written once it reaches point `i`. */
  ghost function Partial(pts: seq<Point>, b: Bounds, i: nat): seq<Renderer.PathCmd>
    requires 1 <= i <= |pts| - 1
  {
    var q := Shift(pts, Padding - b.minX, Padding - b.minY);
    [Renderer.Start(q[0])] + Renderer.Interior(q, 1)[..i - 1]
  }

  /** The loop starts with the move to the first point. */
  lemma PartialStart(pts: seq<Point>, b: Bounds)
    requires |pts| > 1
    ensures Partial(pts, b, 1) == [Renderer.Start(Moved(pts[0], b))]
  {
  }

  /** Each turn of the loop adds the curve through point `i`, ending midway to the next. */
  lemma PartialStep(pts: seq<Point>, b: Bounds, i: nat)
    requires 1 <= i < |pts| - 1
    ensures Partial(pts, b, i + 1)
      == Partial(pts, b, i) + [Renderer.Curve(Moved(pts[i], b), Renderer.Mid(Moved(pts[i], b), Moved(pts[i + 1], b)))]
  {
    var q := Shift(pts, Padding - b.minX, Padding - b.minY);
    var inner := Renderer.Interior(q, 1);
    assert q[i] == Moved(pts[i], b) && q[i + 1] == Moved(pts[i + 1], b);
    assert inner[i - 1] == Renderer.Curve(q[i], Renderer.Mid(q[i], q[i + 1]));
    assert inner[..i] == inner[..i - 1] + [inner[i - 1]];
  }

  /** The final curve to the last point completes the exported path. */
  lemma PartialEnd(pts: seq<Point>, b: Bounds)
    requires |pts| > 1
    ensures Partial(pts, b, |pts| - 1) + [Renderer.Curve(Moved(pts[|pts| - 2], b), Moved(pts[|pts| - 1], b))]
      == StrokePath(pts, b)
  {
    var q := Shift(pts, Padding - b.minX, Padding - b.minY);
    var inner := Renderer.Interior(q, 1);
    assert inner[..|pts| - 2] == inner;
  }

  /** The path loop of `exportToSVG`: a move to the first point, a curve per interior point
      ending midway to the next, and a final curve to the last point, all moved by the
      scene offset as they are computed. */
  method ExportPath(pts: seq<Point>, b: Bounds) returns (d: seq<Renderer.PathCmd>)
    requires |pts| > 1
    ensures d == StrokePath(pts, b)
  {
    PartialStart(pts, b);
    d := [Renderer.Start(Moved(pts[0], b))];
    var i := 1;
    while i < |pts| - 1
      invariant 1 <= i <= |pts| - 1
      invariant d == Partial(pts, b, i)
    {
      var p, next := Moved(pts[i], b), Moved(pts[i + 1], b);
      PartialStep(pts, b, i);
      d := d + [Renderer.Curve(p, Renderer.Mid(p, next))];
      i := i + 1;
    }
    PartialEnd(pts, b);
    d := d + [Renderer.Curve(Moved(pts[|pts| - 2], b), Moved(pts[|pts| - 1], b))];
  }

  /** The node for one element, with the stroke path built by its loop. */
  method EmitNode(e: Element, b: Bounds) returns (node: Option<SvgNode>)
    ensures node == NodeOf(e, b)
  {
    node := NodeOf(e, b);
    if (e.kind == "draw" || e.kind == "freedraw") && |e.points| > 1 {
      assert node == Some(PathNode(StrokePath(e.points, b), e.stroke, e.strokeWidth));
      var d := ExportPath(e.points, b);
      node := Some(PathNode(d, e.stroke, e.strokeWidth));
    }
  }

  /** `exportToSVG`'s loop over the elements: the bounds and the nodes written, in order. */
  method SvgElements(els: seq<Element>) returns (b: Bounds, out: seq<Emitted>)
    ensures b == CanvasBounds(els)
    ensures out == Emit(els, b)
  {
    b := GetCanvasBounds(els);
    out := [];
    for i := 0 to |els|
      invariant out == Emit(els[..i], b)
    {
      assert els[..i + 1][..i] == els[..i];
      var node := EmitNode(els[i], b);
      if node.Some? {
        out := out + [Emitted(node.value, OpacityAttr(els[i]))];
      }
    }
    assert els[..|els|] == els;
  }

  // ---------------------------------------------------------------- arrows (finding)

  /** As written, an arrow made by the arrow tool (pressed at `p`, dragged to `head`, kept
      under `freshId`) has endpoints but no points, so the SVG export leaves it out. */
  lemma ToolArrowsNotExported(p: Point, style: Style, seed: int, head: Point, freshId: string, b: Bounds)
    ensures var preview := ArrowTool.PreviewAt(p, style, seed);
      var dragged := preview.(ends := Some(preview.ends.value.(x2 := head.x, y2 := head.y)));
      NodeOf(ArrowTool.Finished(dragged, freshId), b).None?
  {
  }

  /** The arrow node as evidently intended: an arrow without points is drawn along its
      stored endpoints (else its box diagonal), placed like everything else. */
  function ArrowNodeFixed(e: Element, b: Bounds): SvgNode
    requires e.kind == "arrow"
  {
    if |e.points| > 0 then CurveNode(Shift(e.points, Place(e, b).x, Place(e, b).y), LineStyle(e))
    else
      var (a, z) := Renderer.ArrowEndpoints(e);
      CurveNode(Shift([a, z], Padding - b.minX, Padding - b.minY), LineStyle(e))
  }

  /** The node as evidently intended: arrows go through `ArrowNodeFixed`. */
  function NodeOfFixed(e: Element, b: Bounds): Option<SvgNode>
  {
    if e.kind == "arrow" then Some(ArrowNodeFixed(e, b)) else NodeOf(e, b)
  }

  /** The fix exports every arrow and changes nothing else: an arrow with points gets the
      node it had, and every other element too. */
  lemma NodeOfFixedExportsArrows(e: Element, b: Bounds)
    ensures e.kind == "arrow" ==> NodeOfFixed(e, b).Some? && NodeOfFixed(e, b).value.CurveNode?
    ensures e.kind != "arrow" || |e.points| > 0 ==> NodeOfFixed(e, b) == NodeOf(e, b)
  {
  }

  /** With the fix, every arrow the arrow tool keeps is exported as the line between its
      endpoints, and that line lies inside the picture. */
  lemma FixedArrowsExported(els: seq<Element>, i: nat)
    requires i < |els| && els[i].kind == "arrow" && els[i].points == [] && els[i].ends.Some?
    requires BoxOf(els[i]) == Span(ArrowTool.Tail(els[i].ends.value), ArrowTool.Head(els[i].ends.value))
    ensures var b := CanvasBounds(els); var n := ArrowNodeFixed(els[i], b);
      && n.CurveNode? && |n.points| == 2
      && n.points[0] == Point(els[i].ends.value.x1 - b.minX + Padding, els[i].ends.value.y1 - b.minY + Padding)
      && n.points[1] == Point(els[i].ends.value.x2 - b.minX + Padding, els[i].ends.value.y2 - b.minY + Padding)
      && forall k :: 0 <= k < 2 ==>
           Padding <= n.points[k].x <= ExportSize(b).0 - Padding
           && Padding <= n.points[k].y <= ExportSize(b).1 - Padding
  {
    var e := els[i];
    Renderer.ArrowEndpointsInBox(e);
    PlacedInFrame(els, i);
  }

  // ---------------------------------------------------------------- import

  /** The name an imported canvas gets; `toText` stands for JavaScript's conversion of a
      name that is not a string. */
  function ImportedName(name: JsVal, toText: JsVal -> string): string
  {
    (if name.Str? then name.s else toText(name)) + " (Imported)"
  }

  /** `importFromJSON` after the file is read: `parsed` is `None` when the text is not JSON.
      The import is refused unless the value has a truthy name and an array of elements;
      otherwise it keeps every property and gets the fresh id `freshId`, the name with
      " (Imported)" appended, and `now` as both timestamps. */
  function ImportCanvas(parsed: Option<JsVal>, freshId: string, now: string, toText: JsVal -> string)
    : (r: Option<JsVal>)
  {
    if parsed.None? || !parsed.value.Obj? then None
    else
      var c := parsed.value.fields;
      if !Get(c, "name").Truthy() || !Get(c, "elements").IsArray() then None
      else
        Some(Obj(Spread(c, map["id" := Str(freshId), "name" := Str(ImportedName(Get(c, "name"), toText)),
                               "createdAt" := Str(now), "updatedAt" := Str(now)])))
  }

  /** The import is accepted exactly for an object with a truthy name and an elements
      array; an accepted canvas keeps its elements and every property other than the four
      it is given, and its name still begins with the original one. */
  lemma ImportCanvasSpec(parsed: Option<JsVal>, freshId: string, now: string, toText: JsVal -> string)
    ensures ImportCanvas(parsed, freshId, now, toText).Some? <==>
      parsed.Some? && parsed.value.Obj?
      && Get(parsed.value.fields, "name").Truthy() && Get(parsed.value.fields, "elements").List?
    ensures ImportCanvas(parsed, freshId, now, toText).Some? ==>
      var c := parsed.value.fields;
      var r := ImportCanvas(parsed, freshId, now, toText).value;
      && r.Obj?
      && r.fields.Keys == c.Keys + {"id", "name", "createdAt", "updatedAt"}
      && r.fields["id"] == Str(freshId)
      && r.fields["createdAt"] == r.fields["updatedAt"] == Str(now)
      && r.fields["elements"] == c["elements"]
      && (forall k :: k in c && k !in {"id", "name", "createdAt", "updatedAt"} ==> r.fields[k] == c[k])
      && (Get(c, "name").Str? ==> r.fields["name"] == Str(Get(c, "name").s + " (Imported)"))
  {
  }
}
