/** The editor store: the current tool, the drawing style, the viewport (zoom and scroll),
    the selection, the clipboard and the in-progress drawing flags. */
module EditorStore {
  import opened Base
  import opened Types

  const ZoomMin: real := 0.1
  const ZoomMax: real := 3.0
  const ZoomStep: real := 0.1
  const ZoomDefault: real := 1.0

  const DefaultStroke: string := "#000000"
  const DefaultFill: string := "transparent"
  const DefaultStrokeWidth: real := 2.0
  const DefaultOpacity: real := 100.0
  const DefaultFontFamily: string := "Arial"

  /** `Math.max(MIN, Math.min(MAX, z))`: the zoom `setZoom` stores. */
  function ClampZoom(z: real): (r: real)
    ensures ZoomMin <= r <= ZoomMax
    ensures ZoomMin <= z <= ZoomMax ==> r == z
    ensures z < ZoomMin ==> r == ZoomMin
    ensures z > ZoomMax ==> r == ZoomMax
  {
    Max(ZoomMin, Min(ZoomMax, z))
  }

  /** Clamping twice is clamping once. */
  lemma ClampZoomIdempotent(z: real)
    ensures ClampZoom(ClampZoom(z)) == ClampZoom(z)
  {
  }

  /** The zoom after `zoomIn`: one step up, capped at 3. */
  function ZoomedIn(z: real): (r: real)
    ensures r <= ZoomMax && (r == z + ZoomStep || r == ZoomMax)
    ensures z + ZoomStep <= ZoomMax ==> r == z + ZoomStep
  {
    Min(z + ZoomStep, ZoomMax)
  }

  /** The zoom after `zoomOut`: one step down, floored at 0.1. */
  function ZoomedOut(z: real): (r: real)
    ensures r >= ZoomMin && (r == z - ZoomStep || r == ZoomMin)
    ensures z - ZoomStep >= ZoomMin ==> r == z - ZoomStep
  {
    Max(z - ZoomStep, ZoomMin)
  }

  /** Stepping keeps a zoom in range inside it, and below the cap one step in and one step
      out give back the zoom there was; at the cap, zooming out lands one step below it. */
  lemma ZoomStepRoundTrip(z: real)
    requires ZoomMin <= z <= ZoomMax
    ensures ZoomMin <= ZoomedIn(z) <= ZoomMax && ZoomMin <= ZoomedOut(z) <= ZoomMax
    ensures z + ZoomStep <= ZoomMax ==> ZoomedOut(ZoomedIn(z)) == z
    ensures z + ZoomStep > ZoomMax ==> ZoomedOut(ZoomedIn(z)) == ZoomMax - ZoomStep
  {
  }

  /** What `setSelectedElements` accepts: a list of ids, or a single id. */
  datatype IdsArg = Many(ids: seq<string>) | One(id: string)

  /** `Array.isArray(x) ? x : [x]`. */
  function AsList(arg: IdsArg): (r: seq<string>)
    ensures arg.One? ==> r == [arg.id]
    ensures arg.Many? ==> r == arg.ids
  {
    match arg
    case Many(ids) => ids
    case One(id) => [id]
  }

  class Editor {
    var currentTool: string
    var strokeColor: string
    var fillColor: string
    var strokeWidth: real
    var opacity: real
    var fontFamily: string
    var zoom: real
    var scrollX: real
    var scrollY: real
    var selectedElementIds: seq<string>
    var clipboard: seq<Element>
    var isDrawing: bool
    var isPanning: bool
    var previewElement: Option<Element>

    /** The zoom is always within [0.1, 3]. */
    ghost predicate Valid()
      reads this
    {
      ZoomMin <= zoom <= ZoomMax
    }

    /** The store's initial state. */
    constructor()
      ensures currentTool == "select" && strokeColor == DefaultStroke && fillColor == DefaultFill
      ensures strokeWidth == DefaultStrokeWidth && opacity == DefaultOpacity
      ensures fontFamily == DefaultFontFamily && zoom == ZoomDefault
      ensures scrollX == 0.0 && scrollY == 0.0 && selectedElementIds == [] && clipboard == []
      ensures !isDrawing && !isPanning && previewElement == None && Valid()
    {
      currentTool := "select";
      strokeColor := DefaultStroke;
      fillColor := DefaultFill;
      strokeWidth := DefaultStrokeWidth;
      opacity := DefaultOpacity;
      fontFamily := DefaultFontFamily;
      zoom := ZoomDefault;
      scrollX := 0.0;
      scrollY := 0.0;
      selectedElementIds := [];
      clipboard := [];
      isDrawing := false;
      isPanning := false;
      previewElement := None;
    }

    /** `setCurrentTool`: switching tools also drops the preview and the drawing flag. */
    method SetCurrentTool(tool: string)
      modifies `currentTool, `previewElement, `isDrawing
      ensures currentTool == tool && previewElement == None && !isDrawing
    {
      currentTool := tool;
      previewElement := None;
      isDrawing := false;
    }

    /** `setStrokeColor`, `setFillColor`, `setStrokeWidth`, `setOpacity` and `setFontFamily`:
        each overwrites its one field of the current style. */
    method SetStrokeColor(color: string)
      modifies `strokeColor
      ensures strokeColor == color
    {
      strokeColor := color;
    }

    method SetFillColor(color: string)
      modifies `fillColor
      ensures fillColor == color
    {
      fillColor := color;
    }

    method SetStrokeWidth(width: real)
      modifies `strokeWidth
      ensures strokeWidth == width
    {
      strokeWidth := width;
    }

    method SetOpacity(value: real)
      modifies `opacity
      ensures opacity == value
    {
      opacity := value;
    }

    method SetFontFamily(family: string)
      modifies `fontFamily
      ensures fontFamily == family
    {
      fontFamily := family;
    }

    /** `setZoom`. */
    method SetZoom(z: real)
      modifies `zoom
      ensures zoom == ClampZoom(z) && Valid()
    {
      zoom := ClampZoom(z);
    }

    /** `zoomIn`. */
    method ZoomIn()
      requires Valid()
      modifies `zoom
      ensures zoom == ZoomedIn(old(zoom)) && Valid()
    {
      ZoomStepRoundTrip(zoom);
      zoom := ZoomedIn(zoom);
    }

    /** `zoomOut`. */
    method ZoomOut()
      requires Valid()
      modifies `zoom
      ensures zoom == ZoomedOut(old(zoom)) && Valid()
    {
      ZoomStepRoundTrip(zoom);
      zoom := ZoomedOut(zoom);
    }

    /** `resetZoom`. */
    method ResetZoom()
      modifies `zoom
      ensures zoom == ZoomDefault && Valid()
    {
      zoom := ZoomDefault;
    }

    /** `setScroll`: overwrites both offsets. */
    method SetScroll(x: real, y: real)
      modifies `scrollX, `scrollY
      ensures scrollX == x && scrollY == y
    {
      scrollX := x;
      scrollY := y;
    }

    /** `pan`: adds the deltas to the offsets. */
    method Pan(dx: real, dy: real)
      modifies `scrollX, `scrollY
      ensures scrollX == old(scrollX) + dx && scrollY == old(scrollY) + dy
    {
      scrollX := scrollX + dx;
      scrollY := scrollY + dy;
    }

    /** `setSelectedElements`. */
    method SetSelectedElements(arg: IdsArg)
      modifies `selectedElementIds
      ensures selectedElementIds == AsList(arg)
    {
      selectedElementIds := AsList(arg);
    }

    /** `addToSelection`: appends, even an id already selected. */
    method AddToSelection(id: string)
      modifies `selectedElementIds
      ensures selectedElementIds == old(selectedElementIds) + [id]
    {
      selectedElementIds := selectedElementIds + [id];
    }

    /** `removeFromSelection`: every occurrence of the id goes. */
    method RemoveFromSelection(id: string)
      modifies `selectedElementIds
      ensures selectedElementIds == Without(old(selectedElementIds), id)
      ensures id !in selectedElementIds
    {
      selectedElementIds := Without(selectedElementIds, id);
    }

    /** `clearSelection`. */
    method ClearSelection()
      modifies `selectedElementIds
      ensures selectedElementIds == []
    {
      selectedElementIds := [];
    }

    /** `setClipboard`. */
    method SetClipboard(els: seq<Element>)
      modifies `clipboard
      ensures clipboard == els
    {
      clipboard := els;
    }

    /** `setIsDrawing`, `setIsPanning`, `setPreviewElement` and `clearPreviewElement`. */
    method SetIsDrawing(b: bool)
      modifies `isDrawing
      ensures isDrawing == b
    {
      isDrawing := b;
    }

    method SetIsPanning(b: bool)
      modifies `isPanning
      ensures isPanning == b
    {
      isPanning := b;
    }

    method SetPreviewElement(e: Option<Element>)
      modifies `previewElement
      ensures previewElement == e
    {
      previewElement := e;
    }

    /** `getCurrentStyle`: the style new elements are drawn with. */
    function CurrentStyle(): (s: Style)
      reads this
      ensures s.stroke == strokeColor && s.fill == fillColor && s.strokeWidth == strokeWidth
      ensures s.opacity == opacity && s.fontFamily == fontFamily
    {
      Style(strokeColor, fillColor, strokeWidth, opacity, fontFamily)
    }

    /** `applyStyleToSelection`: hands the selection and the updates back to the caller. */
    method ApplyStyleToSelection<U>(updates: U) returns (ids: seq<string>, u: U)
      ensures ids == selectedElementIds && u == updates
    {
      ids := selectedElementIds;
      u := updates;
    }

    /** `reset`: every field back to its default, except the clipboard, which is kept. */
    method Reset()
      modifies this
      ensures currentTool == "select" && strokeColor == DefaultStroke && fillColor == DefaultFill
      ensures strokeWidth == DefaultStrokeWidth && opacity == DefaultOpacity
      ensures fontFamily == DefaultFontFamily && zoom == ZoomDefault
      ensures scrollX == 0.0 && scrollY == 0.0 && selectedElementIds == []
      ensures !isDrawing && !isPanning && previewElement == None && Valid()
      ensures clipboard == old(clipboard)
    {
      ResetStyle();
      ResetView();
    }

    /** The tool and style half of `reset`. */
    method ResetStyle()
      modifies `currentTool, `strokeColor, `fillColor, `strokeWidth, `opacity, `fontFamily
      ensures currentTool == "select" && strokeColor == DefaultStroke && fillColor == DefaultFill
      ensures strokeWidth == DefaultStrokeWidth && opacity == DefaultOpacity
      ensures fontFamily == DefaultFontFamily
    {
      currentTool := "select";
      strokeColor := DefaultStroke;
      fillColor := DefaultFill;
      strokeWidth := DefaultStrokeWidth;
      opacity := DefaultOpacity;
      fontFamily := DefaultFontFamily;
    }

    /** The view and interaction half of `reset`. */
    method ResetView()
      modifies `zoom, `scrollX, `scrollY, `selectedElementIds, `isDrawing, `isPanning, `previewElement
      ensures zoom == ZoomDefault && Valid()
      ensures scrollX == 0.0 && scrollY == 0.0 && selectedElementIds == []
      ensures !isDrawing && !isPanning && previewElement == None
    {
      zoom := ZoomDefault;
      scrollX := 0.0;
      scrollY := 0.0;
      selectedElementIds := [];
      isDrawing := false;
      isPanning := false;
      previewElement := None;
    }
  }
}
