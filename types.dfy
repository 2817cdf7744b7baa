/** The scene's value types: elements, canvases and their application state, together with
    the constructors that fill in defaults.

    Element properties that the code only ever reads through `||` or a truthiness test are
    stored with their falsy value standing for "absent" (0.0 for numbers, "" for strings,
    [] for point lists).  Only the arrow endpoints are optional, because the code tests them
    with `!== undefined`, for which 0 and absent differ. */
module Types {
  import opened Base

  /** The explicit endpoints `x1, y1, x2, y2` that the arrow tool stores. */
  datatype Ends = Ends(x1: real, y1: real, x2: real, y2: real)

  datatype Element = Element(
    id: string,
    kind: string,           // the `type` property: rectangle, ellipse, arrow, line, draw, freedraw, text
    x: real, y: real, width: real, height: real,
    stroke: string, fill: string,
    strokeWidth: real, roughness: real, opacity: real, angle: real,
    seed: int,
    points: seq<Point>,     // freehand strokes; [] when absent
    ends: Option<Ends>,     // arrows drawn by the arrow tool
    arrowType: string,
    text: string, fontSize: real, fontFamily: string, fontWeight: string, textAlign: string)

  /** An element of the given id and type whose every other property is absent. */
  function Blank(id: string, kind: string): (e: Element)
    ensures e.id == id && e.kind == kind && e.points == [] && e.ends == None
  {
    Element(id, kind, 0.0, 0.0, 0.0, 0.0, "", "", 0.0, 0.0, 0.0, 0.0, 0, [], None, "",
            "", 0.0, "", "", "")
  }

  /** The right and bottom edges of an element's box. */
  function Right(e: Element): real { e.x + e.width }
  function Bottom(e: Element): real { e.y + e.height }

  /** The partial updates `updateElement` receives: each present field overwrites the
      element's own, as `{ ...el, ...updates }` does. */
  datatype Patch = Patch(
    x: Option<real>, y: Option<real>, width: Option<real>, height: Option<real>,
    points: Option<seq<Point>>, ends: Option<Ends>,
    text: Option<string>, fontSize: Option<real>)

  const NoChange: Patch := Patch(None, None, None, None, None, None, None, None)

  function MoveTo(x: real, y: real): Patch { NoChange.(x := Some(x), y := Some(y)) }

  /** Shallow merge of a patch into an element. */
  function Merge(e: Element, p: Patch): (r: Element)
    ensures r.id == e.id && r.kind == e.kind
    ensures r.x == p.x.GetOr(e.x) && r.y == p.y.GetOr(e.y)
    ensures r.width == p.width.GetOr(e.width) && r.height == p.height.GetOr(e.height)
    ensures r.points == p.points.GetOr(e.points) && r.text == p.text.GetOr(e.text)
    ensures r.fontSize == p.fontSize.GetOr(e.fontSize)
    ensures r.ends == (if p.ends.Some? then p.ends else e.ends)
    ensures r.(x := e.x, y := e.y, width := e.width, height := e.height, points := e.points,
               ends := e.ends, text := e.text, fontSize := e.fontSize) == e
  {
    e.(x := p.x.GetOr(e.x), y := p.y.GetOr(e.y),
       width := p.width.GetOr(e.width), height := p.height.GetOr(e.height),
       points := p.points.GetOr(e.points),
       ends := if p.ends.Some? then p.ends else e.ends,
       text := p.text.GetOr(e.text), fontSize := p.fontSize.GetOr(e.fontSize))
  }

  /** Merging the empty patch changes nothing. */
  lemma MergeNoChange(e: Element)
    ensures Merge(e, NoChange) == e
  {
  }

  /** Merging the same update twice is merging it once. */
  lemma MergeTwice(e: Element, p: Patch)
    ensures Merge(Merge(e, p), p) == Merge(e, p)
  {
  }

  /** The drawing style the editor hands to tools (`getCurrentStyle`). */
  datatype Style = Style(stroke: string, fill: string, strokeWidth: real, opacity: real,
                         fontFamily: string)

  // ---------------------------------------------------------------- canvases

  datatype AppState = AppState(
    currentTool: string, strokeColor: string, fillColor: string,
    strokeWidth: real, opacity: real, zoom: real, scrollX: real, scrollY: real,
    selectedElementIds: seq<string>)

  /** Timestamps are milliseconds since the epoch; their ISO text form is not modelled. */
  datatype Canvas = Canvas(
    id: string, name: string, elements: seq<Element>, appState: AppState,
    createdAt: int, updatedAt: int)

  /** `createDefaultAppState`. */
  function DefaultAppState(): (s: AppState)
    ensures s.currentTool == "select" && s.strokeColor == "#000000"
    ensures s.fillColor == "transparent" && s.strokeWidth == 2.0 && s.opacity == 100.0
    ensures s.zoom == 1.0 && s.scrollX == 0.0 && s.scrollY == 0.0
    ensures s.selectedElementIds == []
  {
    AppState("select", "#000000", "transparent", 2.0, 100.0, 1.0, 0.0, 0.0, [])
  }

  /** `createCanvas(name, id)`; `freshId` stands for the generated id and `now` for the clock. */
  function CreateCanvas(name: string, id: string, freshId: string, now: int): (c: Canvas)
    ensures c.id == (if id != "" then id else freshId)
    ensures c.name == name && c.elements == []
    ensures c.appState == DefaultAppState()
    ensures c.createdAt == c.updatedAt == now
  {
    Canvas(StrOr(id, freshId), name, [],
           AppState("select", "#000000", "transparent", 2.0, 100.0, 1.0, 0.0, 0.0, []),
           now, now)
  }

  // ---------------------------------------------------------------- createElement

  /** The `options` argument of `createElement`; absent options hold their falsy value. */
  datatype ElementOptions = ElementOptions(
    id: string, width: real, height: real, stroke: string, fill: string,
    strokeWidth: real, roughness: real, seed: int, angle: real, opacity: real,
    points: seq<Point>, text: string, fontSize: real, fontFamily: string)

  const NoOptions: ElementOptions :=
    ElementOptions("", 0.0, 0.0, "", "", 0.0, 0.0, 0, 0.0, 0.0, [], "", 0.0, "")

  /** `createElement(type, x, y, options)`; `freshId` and `randomSeed` stand for the generated
      id and the random seed. */
  function CreateElement(kind: string, x: real, y: real, o: ElementOptions,
                         freshId: string, randomSeed: int): (e: Element)
    ensures e.kind == kind && e.x == x && e.y == y
    ensures e.id == (if o.id != "" then o.id else freshId)
    ensures e.seed == (if o.seed != 0 then o.seed else randomSeed)
    ensures kind != "draw" && kind != "arrow" ==> e.points == []
    ensures kind != "text" ==> e.text == "" && e.fontSize == 0.0 && e.fontFamily == ""
    ensures e.ends == None && e.arrowType == ""
  {
    var isText := kind == "text";
    Element(
      StrOr(o.id, freshId), kind, x, y,
      NumOr(o.width, 0.0), NumOr(o.height, 0.0),
      StrOr(o.stroke, "#000000"), StrOr(o.fill, "transparent"),
      NumOr(o.strokeWidth, 2.0), NumOr(o.roughness, 1.0), NumOr(o.opacity, 100.0),
      NumOr(o.angle, 0.0),
      if o.seed != 0 then o.seed else randomSeed,
      if kind == "draw" || kind == "arrow" then o.points else [],
      None, "",
      if isText then o.text else "",
      if isText then NumOr(o.fontSize, 20.0) else 0.0,
      if isText then StrOr(o.fontFamily, "Arial") else "",
      "", "")
  }

  /** The defaults `createElement` fills in: a zero stroke width or opacity counts as absent,
      so the element always has a positive stroke width and opacity when no option is given,
      and text elements always get a font size. */
  lemma CreateElementDefaults(kind: string, x: real, y: real, o: ElementOptions,
                              freshId: string, randomSeed: int)
    ensures var e := CreateElement(kind, x, y, o, freshId, randomSeed);
      && (o.strokeWidth == 0.0 ==> e.strokeWidth == 2.0)
      && (o.opacity == 0.0 ==> e.opacity == 100.0)
      && (o.roughness == 0.0 ==> e.roughness == 1.0)
      && (o.stroke == "" ==> e.stroke == "#000000")
      && (o.fill == "" ==> e.fill == "transparent")
      && (o.strokeWidth != 0.0 ==> e.strokeWidth == o.strokeWidth)
      && e.width == o.width && e.height == o.height && e.angle == o.angle
      && (kind == "text" ==> e.fontSize != 0.0 && (o.fontSize != 0.0 ==> e.fontSize == o.fontSize)
                             && e.fontFamily != "")
      && (kind == "draw" || kind == "arrow" ==> e.points == o.points)
  {
  }
}
