/** The canvas component: wheel zoom towards the cursor, wheel and drag panning, the choice
    between panning and handing an event to the current tool, and the dirty flag that gates
    redraws. */
module CanvasView {
  import opened Base
  import opened EditorStore

  /** The wheel's own zoom bounds and step. */
  const WheelZoomMin: real := 0.1
  const WheelZoomMax: real := 5.0
  const WheelStep: real := 0.1

  /** The middle mouse button. */
  const MiddleButton: int := 1

  /** The zoom a ctrl- or meta-wheel asks for: one step out when scrolling down, one step in
      otherwise, kept within [0.1, 5]. */
  function WheelZoom(zoom: real, deltaY: real): (r: real)
    ensures WheelZoomMin <= r <= WheelZoomMax
    ensures WheelZoomMin <= zoom + (if deltaY > 0.0 then -WheelStep else WheelStep) <= WheelZoomMax ==>
      r == zoom + (if deltaY > 0.0 then -WheelStep else WheelStep)
  {
    var delta := if deltaY > 0.0 then -WheelStep else WheelStep;
    Max(WheelZoomMin, Min(WheelZoomMax, zoom + delta))
  }

  /** The scroll offset along one axis that keeps the point under the mouse in place when
      the zoom goes from `zoom` to `newZoom`. */
  function CursorScroll(mouse: real, scroll: real, zoom: real, newZoom: real): real
    requires zoom > 0.0
  {
    mouse - (mouse - scroll) * (newZoom / zoom)
  }

  /** The canvas coordinate under a screen position, along one axis. */
  function Under(mouse: real, scroll: real, zoom: real): real
    requires zoom > 0.0
  {
    (mouse - scroll) / zoom
  }

  /** Zooming towards the cursor keeps the canvas point under the mouse where it was,
      provided the zoom actually applied is the one the scroll was computed for. */
  lemma CursorScrollKeepsPoint(mouse: real, scroll: real, zoom: real, newZoom: real)
    requires zoom > 0.0 && newZoom > 0.0
    ensures Under(mouse, CursorScroll(mouse, scroll, zoom, newZoom), newZoom) == Under(mouse, scroll, zoom)
  {
    var d := mouse - scroll;
    var ratio := newZoom / zoom;
    assert mouse - CursorScroll(mouse, scroll, zoom, newZoom) == d * ratio;
    assert ratio * zoom == newZoom;
    assert d * ratio / newZoom * zoom == d * (ratio * zoom) / newZoom;
    assert d * ratio / newZoom == d / zoom;
  }

  /** Below the store's cap the wheel's zoom is stored as asked, so the point under the
      mouse stays put. */
  lemma WheelKeepsPointBelowCap(mouse: real, scroll: real, zoom: real, deltaY: real)
    requires ZoomMin <= zoom && WheelZoom(zoom, deltaY) <= ZoomMax
    ensures var nz := WheelZoom(zoom, deltaY);
      ClampZoom(nz) == nz
      && Under(mouse, CursorScroll(mouse, scroll, zoom, nz), ClampZoom(nz)) == Under(mouse, scroll, zoom)
  {
    CursorScrollKeepsPoint(mouse, scroll, zoom, WheelZoom(zoom, deltaY));
  }

  /** As written, zooming in by wheel at the store's cap of 3 computes the scroll for a zoom
      of 3.1 while the store keeps 3, so the canvas point under the mouse moves. */
  lemma WheelAtCapDrifts()
    ensures var nz := WheelZoom(3.0, -1.0);
      nz == 3.1 && ClampZoom(nz) == 3.0
      && Under(100.0, CursorScroll(100.0, 0.0, 3.0, nz), ClampZoom(nz)) != Under(100.0, 0.0, 3.0)
  {
    var nz := WheelZoom(3.0, -1.0);
    assert nz == 3.1;
    assert CursorScroll(100.0, 0.0, 3.0, nz) == 100.0 - 100.0 * (3.1 / 3.0);
  }

  /** The wheel zoom as evidently intended: kept within the store's own bounds [0.1, 3]. */
  function WheelZoomFixed(zoom: real, deltaY: real): (r: real)
    ensures ZoomMin <= r <= ZoomMax
  {
    var delta := if deltaY > 0.0 then -WheelStep else WheelStep;
    Max(ZoomMin, Min(ZoomMax, zoom + delta))
  }

  /** With the fix the store keeps exactly the zoom the scroll was computed for, so every
      wheel zoom keeps the point under the mouse; it differs from the code as written only
      where the written code asks for more than 3. */
  lemma WheelFixedKeepsPoint(mouse: real, scroll: real, zoom: real, deltaY: real)
    requires ZoomMin <= zoom <= ZoomMax
    ensures var nz := WheelZoomFixed(zoom, deltaY);
      ClampZoom(nz) == nz
      && Under(mouse, CursorScroll(mouse, scroll, zoom, nz), ClampZoom(nz)) == Under(mouse, scroll, zoom)
    ensures WheelZoom(zoom, deltaY) <= ZoomMax ==> WheelZoomFixed(zoom, deltaY) == WheelZoom(zoom, deltaY)
    ensures ClampZoom(WheelZoom(zoom, deltaY)) == WheelZoomFixed(zoom, deltaY)
  {
    CursorScrollKeepsPoint(mouse, scroll, zoom, WheelZoomFixed(zoom, deltaY));
  }

  // ---------------------------------------------------------------- panning

  /** One pan step: the scroll grows by the pointer's movement since the last recorded
      position, and the new position is recorded. */
  function PanStep(scroll: Point, last: Point, client: Point): (Point, Point)
  {
    (Point(scroll.x + (client.x - last.x), scroll.y + (client.y - last.y)), client)
  }

  /** A drag made of several pan steps. */
  function PanAll(scroll: Point, last: Point, moves: seq<Point>): (Point, Point)
    decreases |moves|
  {
    if moves == [] then (scroll, last)
    else
      var (s, l) := PanAll(scroll, last, moves[..|moves| - 1]);
      PanStep(s, l, moves[|moves| - 1])
  }

  /** However the drag is cut into steps, the scroll moves by exactly the distance from the
      position where panning started to the last pointer position. */
  lemma {:induction false} PanTelescopes(scroll: Point, start: Point, moves: seq<Point>)
    requires moves != []
    ensures var (s, l) := PanAll(scroll, start, moves);
      && l == moves[|moves| - 1]
      && s == Point(scroll.x + (l.x - start.x), scroll.y + (l.y - start.y))
    decreases |moves|
  {
    if |moves| > 1 {
      PanTelescopes(scroll, start, moves[..|moves| - 1]);
    }
  }

  // ---------------------------------------------------------------- dirty flag

  /** The view state the dirty check compares. */
  datatype RenderState = RenderState(zoom: real, scrollX: real, scrollY: real, elementsCount: nat)

  /** The initial record. */
  const InitialRender: RenderState := RenderState(1.0, 0.0, 0.0, 0)

  /** The state-change effect: the flag is raised and the record replaced when anything
      compared differs from the record; otherwise nothing changes. */
  function Sync(dirty: bool, last: RenderState, now: RenderState): (r: (bool, RenderState))
    ensures r.1 == now
    ensures r.0 <==> dirty || last != now
  {
    if last != now then (true, now) else (dirty, last)
  }

  /** A render pass: it draws exactly when the flag is raised, and always leaves it lowered. */
  function Render(dirty: bool): (r: (bool, bool))
    ensures r.0 == dirty && !r.1
  {
    (dirty, false)
  }

  /** After a pass, nothing is drawn again until the compared state changes, and any change
      to it is drawn by the next pass. */
  lemma RedrawOnlyOnChange(dirty: bool, last: RenderState, now: RenderState, next: RenderState)
    ensures var (d1, rec) := Sync(dirty, last, now);
      var d2 := Render(d1).1;
      Render(Sync(d2, rec, next).0).0 <==> next != now
  {
  }

  /** The count the effect compares: the element list's length, 0 without a canvas. */
  function ElementsCount(canvasElements: Option<nat>): nat
  {
    match canvasElements case Some(n) => n case None => 0
  }

  // ---------------------------------------------------------------- the component

  /** The component's refs.  `forwarded` results say whether the event went on to the
      current tool; every tool has all four handlers, so an event is forwarded whenever it
      is not taken for panning. */
  class View {
    var isSpacePressed: bool
    var isPanning: bool
    var lastMousePos: Point
    var isDirty: bool
    var lastRender: RenderState
    var throttled: bool

    constructor()
      ensures !isSpacePressed && !isPanning && lastMousePos == Point(0.0, 0.0)
      ensures isDirty && lastRender == InitialRender && !throttled
    {
      isSpacePressed := false;
      isPanning := false;
      lastMousePos := Point(0.0, 0.0);
      isDirty := true;
      lastRender := InitialRender;
      throttled := false;
    }

    /** Key-down: Space (outside text fields, not already held) arms panning; the key goes
        to the tool unless the user is typing. */
    method OnKeyDown(code: string, isTyping: bool) returns (forwarded: bool)
      modifies `isSpacePressed, `isDirty
      ensures isSpacePressed == (old(isSpacePressed) || (code == "Space" && !isTyping))
      ensures forwarded == !isTyping
      ensures isDirty == (old(isDirty) || forwarded)
    {
      if code == "Space" && !isSpacePressed && !isTyping {
        isSpacePressed := true;
      }
      forwarded := !isTyping;
      if forwarded {
        isDirty := true;
      }
    }

    /** Key-up: releasing Space outside text fields disarms and ends panning. */
    method OnKeyUp(code: string, isTyping: bool)
      modifies `isSpacePressed, `isPanning
      ensures code == "Space" && !isTyping ==> !isSpacePressed && !isPanning
      ensures !(code == "Space" && !isTyping) ==>
        isSpacePressed == old(isSpacePressed) && isPanning == old(isPanning)
    {
      if code == "Space" && !isTyping {
        isSpacePressed := false;
        isPanning := false;
      }
    }

    /** Ctrl- or meta-wheel zooms towards the mouse; a plain wheel scrolls by minus the
        wheel deltas.  `mouse` is the pointer relative to the canvas. */
    method OnWheel(editor: Editor, ctrlOrMeta: bool, deltaX: real, deltaY: real, mouse: Point)
      requires editor.Valid()
      modifies editor`zoom, editor`scrollX, editor`scrollY
      ensures editor.Valid()
      ensures ctrlOrMeta ==>
        var nz := WheelZoom(old(editor.zoom), deltaY);
        && editor.zoom == ClampZoom(nz)
        && editor.scrollX == CursorScroll(mouse.x, old(editor.scrollX), old(editor.zoom), nz)
        && editor.scrollY == CursorScroll(mouse.y, old(editor.scrollY), old(editor.zoom), nz)
      ensures !ctrlOrMeta ==>
        && editor.zoom == old(editor.zoom)
        && editor.scrollX == old(editor.scrollX) - deltaX && editor.scrollY == old(editor.scrollY) - deltaY
    {
      if ctrlOrMeta {
        var zoom := editor.zoom;
        var newZoom := WheelZoom(zoom, deltaY);
        var ratio := newZoom / zoom;
        var sx := mouse.x - (mouse.x - editor.scrollX) * ratio;
        var sy := mouse.y - (mouse.y - editor.scrollY) * ratio;
        editor.SetZoom(newZoom);
        editor.SetScroll(sx, sy);
      } else {
        editor.SetScroll(editor.scrollX - deltaX, editor.scrollY - deltaY);
      }
    }

    /** Mouse-down with Space held or the middle button starts panning and records the
        pointer; any other press goes to the tool. */
    method OnMouseDown(client: Point, button: int) returns (forwarded: bool)
      modifies `isPanning, `lastMousePos, `isDirty
      ensures forwarded <==> !(old(isSpacePressed) || button == MiddleButton)
      ensures !forwarded ==> isPanning && lastMousePos == client && isDirty == old(isDirty)
      ensures forwarded ==> isPanning == old(isPanning) && lastMousePos == old(lastMousePos) && isDirty
    {
      if isSpacePressed || button == MiddleButton {
        isPanning := true;
        lastMousePos := client;
        forwarded := false;
      } else {
        forwarded := true;
        isDirty := true;
      }
    }

    /** Mouse-move while panning is never forwarded: unless a pan update ran in the last
        16 ms it takes one pan step and raises the flag.  Otherwise the move goes to the
        tool. */
    method OnMouseMove(editor: Editor, client: Point) returns (forwarded: bool)
      modifies `lastMousePos, `isDirty, `throttled, editor`scrollX, editor`scrollY
      ensures forwarded <==> !isPanning
      ensures isPanning && old(throttled) ==>
        && lastMousePos == old(lastMousePos) && isDirty == old(isDirty) && throttled
        && editor.scrollX == old(editor.scrollX) && editor.scrollY == old(editor.scrollY)
      ensures isPanning && !old(throttled) ==>
        && (Point(editor.scrollX, editor.scrollY), lastMousePos)
           == PanStep(Point(old(editor.scrollX), old(editor.scrollY)), old(lastMousePos), client)
        && isDirty && throttled
      ensures !isPanning ==>
        && lastMousePos == old(lastMousePos) && isDirty && throttled == old(throttled)
        && editor.scrollX == old(editor.scrollX) && editor.scrollY == old(editor.scrollY)
    {
      forwarded := false;
      if isPanning {
        if throttled {
          return;
        }
        throttled := true;
        var dx := client.x - lastMousePos.x;
        var dy := client.y - lastMousePos.y;
        editor.SetScroll(editor.scrollX + dx, editor.scrollY + dy);
        isDirty := true;
        lastMousePos := client;
      } else {
        forwarded := true;
        isDirty := true;
      }
    }

    /** The 16 ms pan throttle running out. */
    method ThrottleElapsed()
      modifies `throttled
      ensures !throttled
    {
      throttled := false;
    }

    /** Mouse-up ends a pan without forwarding; otherwise it goes to the tool. */
    method OnMouseUp() returns (forwarded: bool)
      modifies `isPanning, `isDirty
      ensures forwarded <==> !old(isPanning)
      ensures !isPanning
      ensures isDirty == (old(isDirty) || forwarded)
    {
      if isPanning {
        isPanning := false;
        forwarded := false;
      } else {
        forwarded := true;
        isDirty := true;
      }
    }

    /** The pointer leaving the canvas is handled exactly as a mouse-up. */
    method OnMouseLeave() returns (forwarded: bool)
      modifies `isPanning, `isDirty
      ensures forwarded <==> !old(isPanning)
      ensures !isPanning
      ensures isDirty == (old(isDirty) || forwarded)
    {
      forwarded := OnMouseUp();
    }

    /** The state-change effect, run after the zoom, scroll, canvas or selection changed;
        the selection is not among the compared values. */
    method SyncRenderState(editor: Editor, canvasElements: Option<nat>)
      modifies `isDirty, `lastRender
      ensures (isDirty, lastRender)
        == Sync(old(isDirty), old(lastRender),
                RenderState(editor.zoom, editor.scrollX, editor.scrollY, ElementsCount(canvasElements)))
    {
      var now := RenderState(editor.zoom, editor.scrollX, editor.scrollY, ElementsCount(canvasElements));
      if lastRender.zoom != now.zoom || lastRender.scrollX != now.scrollX
         || lastRender.scrollY != now.scrollY || lastRender.elementsCount != now.elementsCount {
        isDirty := true;
        lastRender := now;
      }
    }

    /** The render loop starting (again): the flag is raised so the first frame draws. */
    method StartRenderLoop()
      modifies `isDirty
      ensures isDirty
    {
      isDirty := true;
    }

    /** One animation frame: draws exactly when the flag is raised, then lowers it. */
    method RenderFrame() returns (drew: bool)
      modifies `isDirty
      ensures (drew, isDirty) == Render(old(isDirty))
    {
      drew := isDirty;
      if isDirty {
        isDirty := false;
      }
    }
  }
}
