/** The select tool: picking, multi-selection, moving, resizing by eight handles, the
    rubber-band selection box, and the delete, copy, cut, paste and select-all keys.  A
    double click on a text element, or on empty space, hands over to the text tool. */
module SelectTool {
  import opened Base
  import opened Types
  import opened Geometry
  import opened CanvasStore
  import opened ToolContext
  import TextTool

  /** How close, inclusive, the pointer must be to a handle's anchor to grab it. */
  const HandleSize: real := 8.0
  /** The smallest width and height a resize leaves. */
  const MinResizeSize: real := 10.0
  /** The smallest font size a resize of a text element leaves. */
  const MinFontSize: real := 8.0
  /** Two presses on the same target less than this many milliseconds apart are a double
      click. */
  const DoubleClickMs: int := 300
  /** How far pasted copies are moved from their originals, along both axes. */
  const PasteOffset: real := 20.0

  // ---------------------------------------------------------------- picking

  /** `isPointInElement`: the element's box contains the point, edges included. */
  predicate PointInElement(p: Point, e: Element)
  {
    e.x <= p.x <= e.x + e.width && e.y <= p.y <= e.y + e.height
  }

  /** The index `getElementAtPoint` picks: the last element in stacking order containing the
      point. */
  function ElementAt(p: Point, els: seq<Element>): (r: Option<nat>)
    ensures r.Some? ==> r.value < |els|
  {
    if |els| == 0 then None
    else if PointInElement(p, els[|els| - 1]) then Some(|els| - 1)
    else ElementAt(p, els[..|els| - 1])
  }

  /** The chosen element contains the point and none above it does, and there is none only
      when no element contains the point. */
  lemma {:induction false} ElementAtSpec(p: Point, els: seq<Element>)
    ensures ElementAt(p, els).Some? ==>
      var i := ElementAt(p, els).value;
      PointInElement(p, els[i]) && forall j :: i < j < |els| ==> !PointInElement(p, els[j])
    ensures ElementAt(p, els).None? <==> forall j :: 0 <= j < |els| ==> !PointInElement(p, els[j])
  {
    if |els| > 0 && !PointInElement(p, els[|els| - 1]) {
      var init := els[..|els| - 1];
      ElementAtSpec(p, init);
      assert forall j :: 0 <= j < |init| ==> init[j] == els[j];
    }
  }

  /** `getElementAtPoint`: the scan from the top of the stack down. */
  method GetElementAtPoint(p: Point, els: seq<Element>) returns (r: Option<nat>)
    ensures r == ElementAt(p, els)
  {
    var i := |els|;
    assert els[..i] == els;
    while i > 0
      invariant 0 <= i <= |els|
      invariant ElementAt(p, els) == ElementAt(p, els[..i])
    {
      assert els[..i][..i - 1] == els[..i - 1];
      if PointInElement(p, els[i - 1]) {
        return Some(i - 1);
      }
      i := i - 1;
    }
    return None;
  }

  // ---------------------------------------------------------------- resize handles

  datatype Handle = NW | N | NE | E | SE | S | SW | W

  /** The order in which `getResizeHandle` tries the handles. */
  const HandleOrder: seq<Handle> := [NW, N, NE, E, SE, S, SW, W]

  /** Where a handle sits on the element's box: the corners and the midpoints of the sides. */
  function Anchor(h: Handle, e: Element): Point
  {
    match h
    case NW => Point(e.x, e.y)
    case N => Point(e.x + e.width / 2.0, e.y)
    case NE => Point(e.x + e.width, e.y)
    case E => Point(e.x + e.width, e.y + e.height / 2.0)
    case SE => Point(e.x + e.width, e.y + e.height)
    case S => Point(e.x + e.width / 2.0, e.y + e.height)
    case SW => Point(e.x, e.y + e.height)
    case W => Point(e.x, e.y + e.height / 2.0)
  }

  /** The pointer is on the handle: within 8 of its anchor. */
  predicate OnHandle(p: Point, e: Element, h: Handle)
  {
    DistSq(p, Anchor(h, e)) <= HandleSize * HandleSize
  }

  /** The first handle of `hs` the pointer is on. */
  function FirstHandle(p: Point, e: Element, hs: seq<Handle>): Option<Handle>
  {
    if hs == [] then None
    else if OnHandle(p, e, hs[0]) then Some(hs[0])
    else FirstHandle(p, e, hs[1..])
  }

  /** `getResizeHandle`. */
  function ResizeHandleAt(p: Point, e: Element): Option<Handle>
  {
    FirstHandle(p, e, HandleOrder)
  }

  /** The handle found is one the pointer is on and no handle tried before it is; there is
      none only when the pointer is on no handle of the list. */
  lemma {:induction false} FirstHandleSpec(p: Point, e: Element, hs: seq<Handle>)
    ensures FirstHandle(p, e, hs).Some? ==>
      exists k :: 0 <= k < |hs| && hs[k] == FirstHandle(p, e, hs).value
        && OnHandle(p, e, hs[k]) && forall j :: 0 <= j < k ==> !OnHandle(p, e, hs[j])
    ensures FirstHandle(p, e, hs).None? <==> forall j :: 0 <= j < |hs| ==> !OnHandle(p, e, hs[j])
  {
    if hs != [] && !OnHandle(p, e, hs[0]) {
      FirstHandleSpec(p, e, hs[1..]);
      var r := FirstHandle(p, e, hs[1..]);
      if r.Some? {
        var k :| 0 <= k < |hs[1..]| && hs[1..][k] == r.value
          && OnHandle(p, e, hs[1..][k]) && forall j :: 0 <= j < k ==> !OnHandle(p, e, hs[1..][j]);
        assert hs[k + 1] == r.value;
        assert forall j :: 0 <= j < k + 1 ==> !OnHandle(p, e, hs[j]) by {
          forall j | 0 <= j < k + 1 ensures !OnHandle(p, e, hs[j]) {
            if j > 0 { assert hs[j] == hs[1..][j - 1]; }
          }
        }
      } else {
        forall j | 0 <= j < |hs| ensures !OnHandle(p, e, hs[j]) {
          if j > 0 { assert hs[j] == hs[1..][j - 1]; }
        }
      }
    }
  }

  /** A pointer on a corner of a box more than 16 wide and high grabs that corner: no handle
      tried earlier can be within reach as well. */
  lemma CornerGrabbed(e: Element)
    requires e.width > 2.0 * HandleSize && e.height > 2.0 * HandleSize
    ensures ResizeHandleAt(Point(e.x, e.y), e) == Some(NW)
    ensures ResizeHandleAt(Point(e.x + e.width, e.y + e.height), e) == Some(SE)
  {
    var q := Point(e.x + e.width, e.y + e.height);
    assert !OnHandle(q, e, NW) by {
      assert DistSq(q, Anchor(NW, e)) >= e.width * e.width;
      assert e.width * e.width >= 16.0 * e.width;
    }
    assert !OnHandle(q, e, N) by {
      assert DistSq(q, Anchor(N, e)) >= e.height * e.height;
      assert e.height * e.height >= 16.0 * e.height;
    }
    assert !OnHandle(q, e, NE) by {
      assert DistSq(q, Anchor(NE, e)) >= e.height * e.height;
      assert e.height * e.height >= 16.0 * e.height;
    }
    assert !OnHandle(q, e, E) by {
      assert DistSq(q, Anchor(E, e)) == (e.height / 2.0) * (e.height / 2.0);
      assert (e.height / 2.0) * (e.height / 2.0) > 8.0 * (e.height / 2.0);
    }
    var hs := HandleOrder;
    assert FirstHandle(q, e, hs) == FirstHandle(q, e, hs[1..]);
    assert FirstHandle(q, e, hs[1..]) == FirstHandle(q, e, hs[2..]);
    assert FirstHandle(q, e, hs[2..]) == FirstHandle(q, e, hs[3..]);
    assert FirstHandle(q, e, hs[3..]) == FirstHandle(q, e, hs[4..]);
    assert hs[4..][0] == SE && OnHandle(q, e, SE);
  }

  // ---------------------------------------------------------------- resizing

  /** The handles that move the left edge (their name contains 'w'). */
  predicate MovesLeft(h: Handle) { h == NW || h == SW || h == W }

  /** The handles that move the top edge (their name contains 'n'). */
  predicate MovesTop(h: Handle) { h == NW || h == N || h == NE }

  /** The handles that move the right edge and the bottom edge. */
  predicate MovesRight(h: Handle) { h == NE || h == E || h == SE }
  predicate MovesBottom(h: Handle) { h == SE || h == S || h == SW }

  /** `Math.round`: to the nearest integer, halves upwards. */
  function Round(x: real): (r: int)
    ensures r as real - 0.5 <= x < r as real + 0.5
  {
    (x + 0.5).Floor
  }

  /** The font size of a resized text element: the old size (20 when absent) scaled by the
      ratio of the heights, rounded, and at least 8.  A zero initial height is left out (the
      code divides by it); the font size then stays as it was. */
  function ScaledFontSize(fontSize: real, oldHeight: real, newHeight: real): (r: real)
    requires oldHeight != 0.0
    ensures r >= MinFontSize && r == r.Floor as real
    ensures var scaled := NumOr(fontSize, 20.0) * (newHeight / oldHeight);
      && (r == MinFontSize <==> scaled < MinFontSize + 0.5)
      && (r != MinFontSize ==> r - 0.5 <= scaled < r + 0.5)
  {
    Max(MinFontSize, Round(NumOr(fontSize, 20.0) * (newHeight / oldHeight)) as real)
  }

  /** `calculateResize(initial, dx, dy, handle)`, as the update it applies: the dragged edges
      follow the pointer, the others stay, and no side becomes shorter than 10 (a side that
      would is set to 10, keeping the opposite edge when the dragged edge is the left or top
      one); a text element's font size follows its height. */
  function CalculateResize(initial: Element, dx: real, dy: real, h: Handle): (p: Patch)
    ensures p.x.Some? && p.y.Some? && p.width.Some? && p.height.Some?
    ensures p.width.value >= MinResizeSize && p.height.value >= MinResizeSize
    ensures MovesLeft(h) ==> p.x.value + p.width.value == initial.x + initial.width
    ensures !MovesLeft(h) ==> p.x.value == initial.x
    ensures MovesTop(h) ==> p.y.value + p.height.value == initial.y + initial.height
    ensures !MovesTop(h) ==> p.y.value == initial.y
    ensures MovesLeft(h) ==> p.width.value == Max(MinResizeSize, initial.width - dx)
    ensures MovesTop(h) ==> p.height.value == Max(MinResizeSize, initial.height - dy)
    ensures MovesRight(h) ==> p.width.value == Max(MinResizeSize, initial.width + dx)
    ensures MovesBottom(h) ==> p.height.value == Max(MinResizeSize, initial.height + dy)
    ensures !MovesLeft(h) && !MovesRight(h) ==> p.width.value == Max(MinResizeSize, initial.width)
    ensures !MovesTop(h) && !MovesBottom(h) ==> p.height.value == Max(MinResizeSize, initial.height)
    ensures p.points.None? && p.ends.None? && p.text.None?
    ensures p.fontSize.Some? <==> initial.kind == "text" && initial.height != 0.0
    ensures p.fontSize.Some? ==>
      p.fontSize.value == ScaledFontSize(initial.fontSize, initial.height, p.height.value)
  {
    var x := if MovesLeft(h) then initial.x + dx else initial.x;
    var y := if MovesTop(h) then initial.y + dy else initial.y;
    var w := if MovesLeft(h) then initial.width - dx
             else if MovesRight(h) then initial.width + dx else initial.width;
    var ht := if MovesTop(h) then initial.height - dy
              else if MovesBottom(h) then initial.height + dy else initial.height;
    var x' := if w < MinResizeSize && MovesLeft(h) then initial.x + initial.width - MinResizeSize else x;
    var w' := if w < MinResizeSize then MinResizeSize else w;
    var y' := if ht < MinResizeSize && MovesTop(h) then initial.y + initial.height - MinResizeSize else y;
    var ht' := if ht < MinResizeSize then MinResizeSize else ht;
    var fs := if initial.kind == "text" && initial.height != 0.0
              then Some(ScaledFontSize(initial.fontSize, initial.height, ht')) else None;
    NoChange.(x := Some(x'), y := Some(y'), width := Some(w'), height := Some(ht'), fontSize := fs)
  }

  /** A sideways resize of a text element leaves a whole-number font size of at least 8 as
      it was: its height, and so the scale, does not change. */
  lemma SidewaysKeepsFont(initial: Element, dx: real, dy: real, h: Handle)
    requires initial.kind == "text" && (h == E || h == W)
    requires initial.height >= MinResizeSize
    requires initial.fontSize >= MinFontSize && initial.fontSize == initial.fontSize.Floor as real
    ensures CalculateResize(initial, dx, dy, h).fontSize == Some(initial.fontSize)
  {
    var fs := initial.fontSize;
    assert initial.height / initial.height == 1.0;
    assert fs * (initial.height / initial.height) == fs;
    assert (fs + 0.5).Floor == fs.Floor;
  }

  // ---------------------------------------------------------------- moving

  function ShiftEnds(e: Ends, dx: real, dy: real): Ends
  {
    Ends(e.x1 + dx, e.y1 + dy, e.x2 + dx, e.y2 + dy)
  }

  /** The update a drag applies to a selected element, from its snapshot at the press: the
      position moves by the pointer's displacement, and so do a stroke's points and an
      arrow's endpoints. */
  function DragPatch(initial: Element, dx: real, dy: real): (p: Patch)
    ensures p.x == Some(initial.x + dx) && p.y == Some(initial.y + dy)
    ensures p.width.None? && p.height.None? && p.text.None? && p.fontSize.None?
    ensures initial.kind == "draw" || initial.kind == "freedraw" ==>
      p.points == Some(Shift(initial.points, dx, dy))
    ensures !(initial.kind == "draw" || initial.kind == "freedraw") ==> p.points.None?
    ensures initial.kind == "arrow" && initial.ends.Some? ==>
      p.ends == Some(ShiftEnds(initial.ends.value, dx, dy))
    ensures !(initial.kind == "arrow" && initial.ends.Some?) ==> p.ends.None?
  {
    NoChange.(x := Some(initial.x + dx), y := Some(initial.y + dy),
              points := if initial.kind == "draw" || initial.kind == "freedraw"
                        then Some(Shift(initial.points, dx, dy)) else None,
              ends := if initial.kind == "arrow" && initial.ends.Some?
                      then Some(ShiftEnds(initial.ends.value, dx, dy)) else None)
  }

  /** Dragging by (dx, dy) and then by the opposite displacement, measured from the moved
      element, puts the element back exactly; a drag never changes an element's size. */
  lemma DragThereAndBack(e: Element, dx: real, dy: real)
    ensures var moved := Merge(e, DragPatch(e, dx, dy));
      && moved.width == e.width && moved.height == e.height
      && Merge(moved, DragPatch(moved, -dx, -dy)) == e
  {
    var moved := Merge(e, DragPatch(e, dx, dy));
    if e.kind == "draw" || e.kind == "freedraw" {
      assert Shift(Shift(e.points, dx, dy), -dx, -dy) == e.points;
    }
  }

  /** The element list after a drag step: each selected id with a snapshot gets the drag
      update computed from its snapshot, in the order of the selection. */
  function Dragged(els: seq<Element>, ids: seq<string>, snaps: map<string, Element>,
                   dx: real, dy: real): (r: seq<Element>)
    ensures |r| == |els|
  {
    if ids == [] then els
    else
      var prev := Dragged(els, ids[..|ids| - 1], snaps, dx, dy);
      var id := ids[|ids| - 1];
      if id in snaps then UpdateById(prev, id, DragPatch(snaps[id], dx, dy)) else prev
  }

  /** After a drag step each element whose id is selected and has a snapshot has the drag
      update of its snapshot merged in (once, even when the id is selected twice), so it
      stands at the snapshot's position plus the displacement; every other element is as it
      was. */
  lemma {:induction false} DraggedSpec(els: seq<Element>, ids: seq<string>,
                                       snaps: map<string, Element>, dx: real, dy: real)
    ensures forall i :: 0 <= i < |els| ==>
      Dragged(els, ids, snaps, dx, dy)[i]
        == if els[i].id in ids && els[i].id in snaps
           then Merge(els[i], DragPatch(snaps[els[i].id], dx, dy)) else els[i]
  {
    if ids != [] {
      var init := ids[..|ids| - 1];
      DraggedSpec(els, init, snaps, dx, dy);
      var id := ids[|ids| - 1];
      forall i | 0 <= i < |els|
        ensures Dragged(els, ids, snaps, dx, dy)[i]
          == if els[i].id in ids && els[i].id in snaps
             then Merge(els[i], DragPatch(snaps[els[i].id], dx, dy)) else els[i]
      {
        assert forall x :: x in ids <==> x in init || x == id;
        if els[i].id == id && id in snaps {
          MergeTwice(els[i], DragPatch(snaps[id], dx, dy));
        }
      }
    }
  }

  /** Consequently a dragged element stands exactly at its snapshot's position plus the
      displacement. */
  lemma DraggedPosition(els: seq<Element>, ids: seq<string>, snaps: map<string, Element>,
                        dx: real, dy: real, i: nat)
    requires i < |els| && els[i].id in ids && els[i].id in snaps
    ensures Dragged(els, ids, snaps, dx, dy)[i].x == snaps[els[i].id].x + dx
    ensures Dragged(els, ids, snaps, dx, dy)[i].y == snaps[els[i].id].y + dy
  {
    DraggedSpec(els, ids, snaps, dx, dy);
  }

  // ---------------------------------------------------------------- the selection box

  /** The rubber band: where it was started and where the pointer is now. */
  datatype SelectionBox = SelectionBox(startX: real, startY: real, endX: real, endY: real)

  /** `getSelectionBoxBounds`: the normalised box. */
  function SelectionBounds(sb: SelectionBox): (b: Box)
    ensures b == Span(Point(sb.startX, sb.startY), Point(sb.endX, sb.endY))
  {
    SpanSize(Point(sb.startX, sb.startY), Point(sb.endX, sb.endY));
    Box(Min(sb.startX, sb.endX), Min(sb.startY, sb.endY),
        Abs(sb.endX - sb.startX), Abs(sb.endY - sb.startY))
  }

  /** `isElementInBox`: the element's whole box lies inside. */
  predicate ElementInBox(e: Element, b: Box)
  {
    Within(BoxOf(e), b)
  }

  /** The ids of the elements inside the box, in stacking order. */
  function IdsInBox(els: seq<Element>, b: Box): (r: seq<string>)
    ensures forall id :: id in r <==> exists i :: 0 <= i < |els| && els[i].id == id && ElementInBox(els[i], b)
  {
    if els == [] then []
    else
      var rest := IdsInBox(els[1..], b);
      assert forall i :: 0 < i < |els| ==> els[i] == els[1..][i - 1];
      (if ElementInBox(els[0], b) then [els[0].id] else []) + rest
  }

  // ---------------------------------------------------------------- selection lists

  /** A ctrl- or shift-click: remove the id when selected, append it otherwise. */
  function Toggled(ids: seq<string>, id: string): (r: seq<string>)
    ensures id in r <==> id !in ids
    ensures forall x :: x != id ==> (x in r <==> x in ids)
  {
    if id in ids then Without(ids, id) else ids + [id]
  }

  /** Toggling the same element twice gives back the same selection, as a set. */
  lemma ToggleTwice(ids: seq<string>, id: string)
    ensures IdSet(Toggled(Toggled(ids, id), id)) == IdSet(ids)
  {
  }

  /** Cutting splits the elements in two: what goes to the clipboard and what stays on the
      canvas together number exactly the elements there were. */
  lemma {:induction false} CutPartition(els: seq<Element>, ids: seq<string>)
    ensures |SelectedOf(els, ids)| + |RemoveIds(els, IdSet(ids))| == |els|
  {
    if els != [] {
      CutPartition(els[1..], ids);
    }
  }

  /** One pasted copy: the element under a new id, moved by 20 along both axes. */
  function PasteCopy(e: Element, id: string): Element
  {
    e.(id := id, x := e.x + PasteOffset, y := e.y + PasteOffset)
  }

  /** The copies a paste adds: each clipboard element with the next fresh id, moved by 20
      along both axes, everything else copied. */
  function Pasted(clip: seq<Element>, freshIds: seq<string>): (r: seq<Element>)
    requires |freshIds| == |clip|
    ensures |r| == |clip|
    ensures forall i :: 0 <= i < |clip| ==> r[i] == PasteCopy(clip[i], freshIds[i])
  {
    if clip == [] then []
    else Pasted(clip[..|clip| - 1], freshIds[..|clip| - 1])
         + [PasteCopy(clip[|clip| - 1], freshIds[|clip| - 1])]
  }

  /** Pasting one more clipboard element appends its copy. */
  lemma PastedSnoc(clip: seq<Element>, freshIds: seq<string>, i: nat)
    requires |freshIds| == |clip| && i < |clip|
    ensures Pasted(clip[..i + 1], freshIds[..i + 1])
      == Pasted(clip[..i], freshIds[..i]) + [PasteCopy(clip[i], freshIds[i])]
  {
    assert clip[..i + 1][..i] == clip[..i] && freshIds[..i + 1][..i] == freshIds[..i];
  }

  /** The pasted copies carry exactly the fresh ids, in order, so a paste selects exactly
      the copies it added. */
  lemma PastedIds(clip: seq<Element>, freshIds: seq<string>)
    requires |freshIds| == |clip|
    ensures Ids(Pasted(clip, freshIds)) == freshIds
  {
  }

  // ---------------------------------------------------------------- the tool

  class Select {
    var isDragging: bool
    var isResizing: bool
    var resizeHandle: Option<Handle>
    var dragStart: Option<Point>
    var selectionBox: Option<SelectionBox>
    var initialStates: map<string, Element>
    var lastClickTime: int
    var lastClickElement: Option<string>

    /** A resize always knows its handle and where it started; a drag where it started. */
    ghost predicate Valid()
      reads this
    {
      (isResizing ==> resizeHandle.Some? && dragStart.Some?) && (isDragging ==> dragStart.Some?)
    }

    constructor()
      ensures !isDragging && !isResizing && resizeHandle == None && dragStart == None
      ensures selectionBox == None && initialStates == map[]
      ensures lastClickTime == 0 && lastClickElement == None && Valid()
    {
      isDragging := false;
      isResizing := false;
      resizeHandle := None;
      dragStart := None;
      selectionBox := None;
      initialStates := map[];
      lastClickTime := 0;
      lastClickElement := None;
    }

    /** The snapshot of every selected element, then of the pressed one if it is not
        selected: the starting points of a drag. */
    method Snapshot(els: seq<Element>, selected: seq<string>, pressed: Element)
      modifies `initialStates
      ensures forall id :: id in selected && FindById(els, id).Some? ==>
        id in initialStates && initialStates[id] == FindById(els, id).value
      ensures pressed.id !in selected ==> pressed.id in initialStates && initialStates[pressed.id] == pressed
      ensures forall id :: id in initialStates ==>
        id in old(initialStates) || id in selected || id == pressed.id
    {
      var i := 0;
      while i < |selected|
        invariant 0 <= i <= |selected|
        invariant forall id :: id in selected[..i] && FindById(els, id).Some? ==>
          id in initialStates && initialStates[id] == FindById(els, id).value
        invariant forall id :: id in initialStates ==> id in old(initialStates) || id in selected
      {
        var found := FindById(els, selected[i]);
        if found.Some? {
          initialStates := initialStates[selected[i] := found.value];
        }
        assert forall id :: id in selected[..i + 1] <==> id in selected[..i] || id == selected[i];
        i := i + 1;
      }
      assert selected[..i] == selected;
      if pressed.id !in selected {
        initialStates := initialStates[pressed.id := pressed];
      }
    }

    /** The hand-over on a double click on text: switch to the text tool and edit `id`. */
    static method EditText(ctx: Context, text: TextTool.TextTool, id: string,
                           lineWidth: (TextTool.Font, string) -> real)
      requires ctx.Valid() && text.Valid()
      modifies ctx, text
      ensures ctx.Valid() && text.Valid() && ctx.selected == old(ctx.selected)
      ensures ctx.hasCanvas == old(ctx.hasCanvas) && ctx.clipboard == old(ctx.clipboard)
      ensures var found := FindById(old(ctx.elements), id);
        if found.Some? && found.value.kind == "text" then
          && text.isEditing && text.editingElementId == id
          && ctx.elements == old(text.Finishing(ctx.elements, false, lineWidth))
          && ctx.committed == (if old(text.Commits()) && ctx.hasCanvas
                               then old(ctx.committed) + [ctx.elements] else old(ctx.committed))
          && ctx.currentTool == (if old(text.Commits()) then "select" else "text")
        else
          && ctx.elements == old(ctx.elements) && ctx.committed == old(ctx.committed)
          && ctx.currentTool == "text"
    {
      ctx.SetCurrentTool("text");
      text.StartEditingExisting(ctx, id, lineWidth);
    }

    /** The hand-over on a double click on empty space: switch to the text tool and create
        a text element at `p`. */
    static method CreateText(ctx: Context, text: TextTool.TextTool, p: Point, freshId: string,
                             lineWidth: (TextTool.Font, string) -> real)
      requires ctx.Valid() && text.Valid()
      modifies ctx, text
      ensures ctx.Valid() && text.Valid() && ctx.selected == old(ctx.selected)
      ensures ctx.hasCanvas == old(ctx.hasCanvas) && ctx.clipboard == old(ctx.clipboard)
      ensures text.isEditing && text.editingElementId == freshId
      ensures var added := if ctx.hasCanvas then old(ctx.elements) + [TextTool.NewText(p, ctx.style, freshId)]
                           else old(ctx.elements);
        ctx.elements == old(text.Finishing(added, false, lineWidth))
      ensures ctx.committed == if old(text.Commits()) && ctx.hasCanvas
                               then old(ctx.committed) + [ctx.elements] else old(ctx.committed)
      ensures ctx.currentTool == if old(text.Commits()) then "select" else "text"
    {
      ctx.SetCurrentTool("text");
      text.CreateNewText(ctx, p, freshId, lineWidth);
    }

    /** A press on the element `e`, the topmost one under the pointer: a second press on a
        text element within 300 ms switches to the text tool and edits it; otherwise the
        click is remembered, and a ctrl/shift click toggles `e` in the selection while a
        plain click selects it (unless already selected) and starts a drag from snapshots. */
    method PressElement(ctx: Context, text: TextTool.TextTool, p: Point, e: Element,
                        ctrlOrShift: bool, now: int, lineWidth: (TextTool.Font, string) -> real)
      requires ctx.Valid() && Valid() && text.Valid()
      modifies this, ctx, text
      ensures ctx.Valid() && Valid() && text.Valid()
      ensures isResizing == old(isResizing) && resizeHandle == old(resizeHandle)
      ensures selectionBox == old(selectionBox)
      ensures var els := old(ctx.elements); var sel := old(ctx.selected);
        if old(lastClickElement) == Some(e.id) && now - old(lastClickTime) < DoubleClickMs
           && e.kind == "text" then
          && lastClickTime == 0 && lastClickElement == None && ctx.selected == sel
          && isDragging == old(isDragging) && dragStart == old(dragStart)
          && initialStates == old(initialStates)
          && if FindById(els, e.id).Some? && FindById(els, e.id).value.kind == "text" then
               && text.isEditing && text.editingElementId == e.id
               && ctx.elements == old(text.Finishing(ctx.elements, false, lineWidth))
               && ctx.committed == (if old(text.Commits()) && ctx.hasCanvas
                                    then old(ctx.committed) + [ctx.elements] else old(ctx.committed))
               && ctx.currentTool == (if old(text.Commits()) then "select" else "text")
             else
               && ctx.elements == els && ctx.committed == old(ctx.committed)
               && ctx.currentTool == "text"
        else
          && lastClickTime == now && lastClickElement == Some(e.id)
          && ctx.elements == els && ctx.committed == old(ctx.committed)
          && ctx.currentTool == old(ctx.currentTool)
          && (ctrlOrShift ==>
                && ctx.selected == Toggled(sel, e.id) && isDragging == old(isDragging)
                && dragStart == old(dragStart) && initialStates == old(initialStates))
          && (!ctrlOrShift ==>
                && ctx.selected == (if e.id in sel then sel else [e.id])
                && isDragging && dragStart == Some(p)
                && (forall id :: id in sel && FindById(els, id).Some? ==>
                      id in initialStates && initialStates[id] == FindById(els, id).value)
                && (e.id !in sel ==> e.id in initialStates && initialStates[e.id] == e))
    {
      var els := ctx.elements;
      var selected := ctx.selected;
      var isDoubleClick := lastClickElement == Some(e.id) && now - lastClickTime < DoubleClickMs;
      if isDoubleClick && e.kind == "text" {
        EditText(ctx, text, e.id, lineWidth);
        lastClickTime := 0;
        lastClickElement := None;
        return;
      }
      lastClickTime := now;
      lastClickElement := Some(e.id);
      SelectOrDrag(ctx, p, e, ctrlOrShift);
    }

    /** A single press on `e`: a ctrl/shift press toggles it in the selection; a plain press
        selects it (unless already selected) and starts a drag from snapshots of the selected
        elements and of `e`. */
    method SelectOrDrag(ctx: Context, p: Point, e: Element, ctrlOrShift: bool)
      requires ctx.Valid() && Valid()
      modifies `isDragging, `dragStart, `initialStates, ctx
      ensures ctx.Valid() && Valid()
      ensures ctx.elements == old(ctx.elements) && ctx.committed == old(ctx.committed)
      ensures ctx.currentTool == old(ctx.currentTool) && ctx.hasCanvas == old(ctx.hasCanvas)
      ensures ctx.clipboard == old(ctx.clipboard)
      ensures ctrlOrShift ==>
        && ctx.selected == Toggled(old(ctx.selected), e.id) && isDragging == old(isDragging)
        && dragStart == old(dragStart) && initialStates == old(initialStates)
      ensures !ctrlOrShift ==>
        var els := old(ctx.elements); var sel := old(ctx.selected);
        && ctx.selected == (if e.id in sel then sel else [e.id])
        && isDragging && dragStart == Some(p)
        && (forall id :: id in sel && FindById(els, id).Some? ==>
              id in initialStates && initialStates[id] == FindById(els, id).value)
        && (e.id !in sel ==> e.id in initialStates && initialStates[e.id] == e)
    {
      var els := ctx.elements;
      var selected := ctx.selected;
      if ctrlOrShift {
        ctx.SetSelectedIds(Toggled(selected, e.id));
      } else {
        if e.id !in selected {
          ctx.SetSelectedIds([e.id]);
        }
        isDragging := true;
        dragStart := Some(p);
        Snapshot(els, selected, e);
      }
    }

    /** A press on empty space: a second one within 300 ms switches to the text tool and
        creates a text element there; otherwise the click is remembered, a plain press
        clears the selection, and a selection box starts at the pointer. */
    method PressEmpty(ctx: Context, text: TextTool.TextTool, p: Point, ctrlOrShift: bool, now: int,
                      freshId: string, lineWidth: (TextTool.Font, string) -> real)
      requires ctx.Valid() && Valid() && text.Valid()
      modifies `lastClickTime, `lastClickElement, `selectionBox, ctx, text
      ensures ctx.Valid() && Valid() && text.Valid()
      ensures isResizing == old(isResizing) && resizeHandle == old(resizeHandle)
      ensures isDragging == old(isDragging) && dragStart == old(dragStart)
      ensures initialStates == old(initialStates)
      ensures if old(lastClickElement) == None && now - old(lastClickTime) < DoubleClickMs then
          && lastClickTime == 0 && lastClickElement == None && ctx.selected == old(ctx.selected)
          && text.isEditing && text.editingElementId == freshId
          && selectionBox == old(selectionBox)
          && (var added := if ctx.hasCanvas
                           then old(ctx.elements) + [TextTool.NewText(p, ctx.style, freshId)]
                           else old(ctx.elements);
              ctx.elements == old(text.Finishing(added, false, lineWidth)))
          && ctx.committed == (if old(text.Commits()) && ctx.hasCanvas
                               then old(ctx.committed) + [ctx.elements] else old(ctx.committed))
          && ctx.currentTool == (if old(text.Commits()) then "select" else "text")
        else
          && lastClickTime == now && lastClickElement == None
          && ctx.selected == (if ctrlOrShift then old(ctx.selected) else [])
          && selectionBox == Some(SelectionBox(p.x, p.y, p.x, p.y))
          && ctx.elements == old(ctx.elements) && ctx.committed == old(ctx.committed)
          && ctx.currentTool == old(ctx.currentTool)
    {
      var isDoubleClick := lastClickElement == None && now - lastClickTime < DoubleClickMs;
      if isDoubleClick {
        CreateTextForgetting(ctx, text, p, freshId, lineWidth);
      } else {
        StartBox(ctx, p, ctrlOrShift, now);
      }
    }

    /** A double click on empty space: create a text element there and forget the click. */
    method CreateTextForgetting(ctx: Context, text: TextTool.TextTool, p: Point, freshId: string,
                                lineWidth: (TextTool.Font, string) -> real)
      requires ctx.Valid() && text.Valid()
      modifies `lastClickTime, `lastClickElement, ctx, text
      ensures ctx.Valid() && text.Valid() && ctx.selected == old(ctx.selected)
      ensures lastClickTime == 0 && lastClickElement == None
      ensures text.isEditing && text.editingElementId == freshId
      ensures var added := if ctx.hasCanvas then old(ctx.elements) + [TextTool.NewText(p, ctx.style, freshId)]
                           else old(ctx.elements);
        ctx.elements == old(text.Finishing(added, false, lineWidth))
      ensures ctx.committed == if old(text.Commits()) && ctx.hasCanvas
                               then old(ctx.committed) + [ctx.elements] else old(ctx.committed)
      ensures ctx.currentTool == if old(text.Commits()) then "select" else "text"
    {
      lastClickTime := 0;
      lastClickElement := None;
      CreateText(ctx, text, p, freshId, lineWidth);
    }

    /** A single press on empty space: the click is remembered, a plain press clears the
        selection, and a selection box starts at `p`. */
    method StartBox(ctx: Context, p: Point, ctrlOrShift: bool, now: int)
      requires ctx.Valid()
      modifies `lastClickTime, `lastClickElement, `selectionBox, ctx
      ensures ctx.Valid()
      ensures lastClickTime == now && lastClickElement == None
      ensures ctx.selected == (if ctrlOrShift then old(ctx.selected) else [])
      ensures selectionBox == Some(SelectionBox(p.x, p.y, p.x, p.y))
      ensures ctx.elements == old(ctx.elements) && ctx.committed == old(ctx.committed)
      ensures ctx.currentTool == old(ctx.currentTool)
    {
      lastClickTime := now;
      lastClickElement := None;
      if !ctrlOrShift {
        ctx.SetSelectedIds([]);
      }
      selectionBox := Some(SelectionBox(p.x, p.y, p.x, p.y));
    }

    /** The handle of the single selected element the pointer is on, if any. */
    function GrabbedHandle(els: seq<Element>, sel: seq<string>, p: Point): Option<Handle>
    {
      if |sel| == 1 && FindById(els, sel[0]).Some?
      then ResizeHandleAt(p, FindById(els, sel[0]).value) else None
    }

    /** A press: grab a handle of the single selected element and start a resize from its
        snapshot, else press on the topmost element under the pointer, else on empty space.
        `now` is the clock in milliseconds. */
    method OnMouseDown(ctx: Context, text: TextTool.TextTool, p: Point, ctrlOrShift: bool, now: int,
                       freshId: string, lineWidth: (TextTool.Font, string) -> real)
      requires ctx.Valid() && Valid() && text.Valid()
      modifies this, ctx, text
      ensures ctx.Valid() && Valid() && text.Valid()
      ensures var els := old(ctx.elements); var sel := old(ctx.selected);
        GrabbedHandle(els, sel, p).Some? ==>
          && isResizing && resizeHandle == GrabbedHandle(els, sel, p) && dragStart == Some(p)
          && initialStates == old(initialStates)[sel[0] := FindById(els, sel[0]).value]
          && ctx.elements == els && ctx.selected == sel && ctx.committed == old(ctx.committed)
          && isDragging == old(isDragging) && selectionBox == old(selectionBox)
          && lastClickTime == old(lastClickTime) && lastClickElement == old(lastClickElement)
          && ctx.currentTool == old(ctx.currentTool) && ctx.clipboard == old(ctx.clipboard)
          && text.isEditing == old(text.isEditing)
          && text.editingElementId == old(text.editingElementId)
      ensures var els := old(ctx.elements); var sel := old(ctx.selected);
        GrabbedHandle(els, sel, p).None? && ElementAt(p, els).Some? ==>
          var e := els[ElementAt(p, els).value];
          && isResizing == old(isResizing) && resizeHandle == old(resizeHandle)
          && selectionBox == old(selectionBox)
          && if old(lastClickElement) == Some(e.id) && now - old(lastClickTime) < DoubleClickMs
                && e.kind == "text" then
              && lastClickTime == 0 && lastClickElement == None && ctx.selected == sel
              && isDragging == old(isDragging) && dragStart == old(dragStart)
              && initialStates == old(initialStates)
              && if FindById(els, e.id).Some? && FindById(els, e.id).value.kind == "text" then
                   && text.isEditing && text.editingElementId == e.id
                   && ctx.elements == old(text.Finishing(ctx.elements, false, lineWidth))
                   && ctx.committed == (if old(text.Commits()) && ctx.hasCanvas
                                        then old(ctx.committed) + [ctx.elements] else old(ctx.committed))
                   && ctx.currentTool == (if old(text.Commits()) then "select" else "text")
                 else
                   && ctx.elements == els && ctx.committed == old(ctx.committed)
                   && ctx.currentTool == "text"
            else
              && lastClickTime == now && lastClickElement == Some(e.id)
              && ctx.elements == els && ctx.committed == old(ctx.committed)
              && ctx.currentTool == old(ctx.currentTool)
              && (ctrlOrShift ==>
                    && ctx.selected == Toggled(sel, e.id) && isDragging == old(isDragging)
                    && dragStart == old(dragStart) && initialStates == old(initialStates))
              && (!ctrlOrShift ==>
                    && ctx.selected == (if e.id in sel then sel else [e.id])
                    && isDragging && dragStart == Some(p)
                    && (forall id :: id in sel && FindById(els, id).Some? ==>
                          id in initialStates && initialStates[id] == FindById(els, id).value)
                    && (e.id !in sel ==> e.id in initialStates && initialStates[e.id] == e))
      ensures GrabbedHandle(old(ctx.elements), old(ctx.selected), p).None?
              && ElementAt(p, old(ctx.elements)).None? ==>
        && isResizing == old(isResizing) && resizeHandle == old(resizeHandle)
        && isDragging == old(isDragging) && dragStart == old(dragStart)
        && initialStates == old(initialStates)
        && if old(lastClickElement) == None && now - old(lastClickTime) < DoubleClickMs then
            && lastClickTime == 0 && lastClickElement == None && ctx.selected == old(ctx.selected)
            && text.isEditing && text.editingElementId == freshId
            && selectionBox == old(selectionBox)
            && (var added := if ctx.hasCanvas
                             then old(ctx.elements) + [TextTool.NewText(p, ctx.style, freshId)]
                             else old(ctx.elements);
                ctx.elements == old(text.Finishing(added, false, lineWidth)))
            && ctx.committed == (if old(text.Commits()) && ctx.hasCanvas
                                 then old(ctx.committed) + [ctx.elements] else old(ctx.committed))
            && ctx.currentTool == (if old(text.Commits()) then "select" else "text")
          else
            && lastClickTime == now && lastClickElement == None
            && ctx.selected == (if ctrlOrShift then old(ctx.selected) else [])
            && selectionBox == Some(SelectionBox(p.x, p.y, p.x, p.y))
            && ctx.elements == old(ctx.elements) && ctx.committed == old(ctx.committed)
            && ctx.currentTool == old(ctx.currentTool)
    {
      var els := ctx.elements;
      var selected := ctx.selected;
      var h := GrabbedHandle(els, selected, p);
      if h.Some? {
        var found := FindById(els, selected[0]);
        isResizing := true;
        resizeHandle := h;
        dragStart := Some(p);
        initialStates := initialStates[selected[0] := found.value];
        return;
      }
      var hit := GetElementAtPoint(p, els);
      if hit.Some? {
        PressElement(ctx, text, p, els[hit.value], ctrlOrShift, now, lineWidth);
      } else {
        PressEmpty(ctx, text, p, ctrlOrShift, now, freshId, lineWidth);
      }
    }

    /** One drag step: every selected element with a snapshot gets the drag update. */
    method DragSelected(ctx: Context, ids: seq<string>, dx: real, dy: real)
      requires ctx.Valid()
      modifies ctx
      ensures ctx.Valid()
      ensures ctx.elements == Dragged(old(ctx.elements), ids, initialStates, dx, dy)
      ensures ctx.selected == old(ctx.selected) && ctx.committed == old(ctx.committed)
      ensures ctx.hasCanvas == old(ctx.hasCanvas) && ctx.clipboard == old(ctx.clipboard)
      ensures ctx.currentTool == old(ctx.currentTool)
    {
      var i := 0;
      while i < |ids|
        invariant 0 <= i <= |ids| && ctx.Valid()
        invariant ctx.elements == Dragged(old(ctx.elements), ids[..i], initialStates, dx, dy)
        invariant ctx.selected == old(ctx.selected) && ctx.committed == old(ctx.committed)
        invariant ctx.hasCanvas == old(ctx.hasCanvas) && ctx.clipboard == old(ctx.clipboard)
        invariant ctx.currentTool == old(ctx.currentTool)
      {
        assert ids[..i + 1][..i] == ids[..i];
        var id := ids[i];
        if id in initialStates {
          ctx.UpdateElement(id, DragPatch(initialStates[id], dx, dy));
        }
        i := i + 1;
      }
      assert ids[..i] == ids;
    }

    /** The elements after a resize step with the pointer at `p`: the element `id` gets the
        resize update computed from its snapshot, the handle and the pointer's displacement
        since the press.  Without an element or a snapshot nothing changes (the code would
        fail on the missing snapshot). */
    function Resized(els: seq<Element>, id: string, p: Point): seq<Element>
      reads this
      requires resizeHandle.Some? && dragStart.Some?
    {
      if FindById(els, id).Some? && id in initialStates then UpdateById(els, id, ResizePatch(id, p))
      else els
    }

    /** The resize update of `id` with the pointer at `p`. */
    function ResizePatch(id: string, p: Point): Patch
      reads this
      requires resizeHandle.Some? && dragStart.Some? && id in initialStates
    {
      CalculateResize(initialStates[id], p.x - dragStart.value.x, p.y - dragStart.value.y,
                      resizeHandle.value)
    }

    /** One resize step of the element `id`. */
    method ResizeSelected(ctx: Context, id: string, p: Point)
      requires ctx.Valid() && resizeHandle.Some? && dragStart.Some?
      modifies ctx
      ensures ctx.Valid() && ctx.elements == Resized(old(ctx.elements), id, p)
      ensures ctx.selected == old(ctx.selected) && ctx.committed == old(ctx.committed)
      ensures ctx.hasCanvas == old(ctx.hasCanvas) && ctx.clipboard == old(ctx.clipboard)
      ensures ctx.currentTool == old(ctx.currentTool)
    {
      var found := FindById(ctx.elements, id);
      if found.Some? && id in initialStates {
        ctx.UpdateElement(id, ResizePatch(id, p));
      }
    }

    /** A pointer move: a resize updates the single selected element from its snapshot; a
        drag moves every selected element by the displacement since the press; a selection
        box follows the pointer and selects exactly the elements wholly inside it.  Hover
        feedback (the cursor) is left out. */
    method OnMouseMove(ctx: Context, p: Point)
      requires ctx.Valid() && Valid()
      modifies `selectionBox, ctx
      ensures ctx.Valid() && Valid()
      ensures ctx.committed == old(ctx.committed) && ctx.currentTool == old(ctx.currentTool)
      ensures ctx.hasCanvas == old(ctx.hasCanvas) && ctx.clipboard == old(ctx.clipboard)
      ensures isResizing && |old(ctx.selected)| == 1 ==>
        && selectionBox == old(selectionBox) && ctx.selected == old(ctx.selected)
        && ctx.elements == Resized(old(ctx.elements), old(ctx.selected)[0], p)
      ensures !(isResizing && |old(ctx.selected)| == 1) && isDragging ==>
        && selectionBox == old(selectionBox) && ctx.selected == old(ctx.selected)
        && ctx.elements == Dragged(old(ctx.elements), old(ctx.selected), initialStates,
                                   p.x - dragStart.value.x, p.y - dragStart.value.y)
      ensures !(isResizing && |old(ctx.selected)| == 1) && !isDragging && old(selectionBox).Some? ==>
        && selectionBox == Some(old(selectionBox).value.(endX := p.x, endY := p.y))
        && ctx.selected == IdsInBox(old(ctx.elements), SelectionBounds(selectionBox.value))
        && ctx.elements == old(ctx.elements)
      ensures !(isResizing && |old(ctx.selected)| == 1) && !isDragging && old(selectionBox).None? ==>
        selectionBox == None && ctx.selected == old(ctx.selected) && ctx.elements == old(ctx.elements)
    {
      var els := ctx.elements;
      var selected := ctx.selected;
      if isResizing && |selected| == 1 {
        ResizeSelected(ctx, selected[0], p);
        return;
      }
      if isDragging {
        DragSelected(ctx, selected, p.x - dragStart.value.x, p.y - dragStart.value.y);
        return;
      }
      if selectionBox.Some? {
        selectionBox := Some(selectionBox.value.(endX := p.x, endY := p.y));
        ctx.SetSelectedIds(IdsInBox(els, SelectionBounds(selectionBox.value)));
      }
    }

    /** Release: a drag or a resize is committed once; every gesture ends. */
    method OnMouseUp(ctx: Context)
      modifies this, ctx
      ensures !isDragging && !isResizing && resizeHandle == None && dragStart == None
      ensures selectionBox == None && initialStates == map[] && Valid()
      ensures lastClickTime == old(lastClickTime) && lastClickElement == old(lastClickElement)
      ensures ctx.committed == if (old(isDragging) || old(isResizing)) && ctx.hasCanvas
                               then old(ctx.committed) + [ctx.elements] else old(ctx.committed)
      ensures ctx.elements == old(ctx.elements) && ctx.selected == old(ctx.selected)
      ensures ctx.hasCanvas == old(ctx.hasCanvas) && ctx.clipboard == old(ctx.clipboard)
      ensures ctx.currentTool == old(ctx.currentTool)
    {
      if isDragging || isResizing {
        ctx.CommitChanges();
      }
      isDragging := false;
      isResizing := false;
      resizeHandle := None;
      dragStart := None;
      selectionBox := None;
      initialStates := map[];
    }
  }

  // ---------------------------------------------------------------- keys

  /** `selectedIds.forEach(id => state.deleteElement(id))`. */
  method DeleteAll(ctx: Context, ids: seq<string>)
    requires ctx.Valid()
    modifies ctx
    ensures ctx.Valid()
    ensures ctx.elements == RemoveIds(old(ctx.elements), IdSet(ids))
    ensures ctx.selected == old(ctx.selected) && ctx.committed == old(ctx.committed)
    ensures ctx.hasCanvas == old(ctx.hasCanvas) && ctx.clipboard == old(ctx.clipboard)
    ensures ctx.currentTool == old(ctx.currentTool)
  {
    var els := ctx.elements;
    RemoveIdsNone(els, {});
    assert IdSet(ids[..0]) == {};
    var i := 0;
    while i < |ids|
      invariant 0 <= i <= |ids| && ctx.Valid()
      invariant ctx.elements == RemoveIds(els, IdSet(ids[..i]))
      invariant ctx.selected == old(ctx.selected) && ctx.committed == old(ctx.committed)
      invariant ctx.hasCanvas == old(ctx.hasCanvas) && ctx.clipboard == old(ctx.clipboard)
      invariant ctx.currentTool == old(ctx.currentTool)
    {
      RemoveIdsTwice(els, IdSet(ids[..i]), {ids[i]});
      IdSetSnoc(ids, i);
      ctx.DeleteElement(ids[i]);
      i := i + 1;
    }
    assert ids[..i] == ids;
  }

  /** `clipboard.forEach(el => state.addElement({...el, id: nanoid(), x: el.x + 20,
      y: el.y + 20}))`, with `freshIds` for the generated ids; returns the new ids. */
  method PasteAll(ctx: Context, clip: seq<Element>, freshIds: seq<string>) returns (newIds: seq<string>)
    requires ctx.Valid() && |freshIds| == |clip|
    modifies ctx
    ensures ctx.Valid() && newIds == freshIds
    ensures ctx.elements == if ctx.hasCanvas then old(ctx.elements) + Pasted(clip, freshIds)
                            else old(ctx.elements)
    ensures ctx.selected == old(ctx.selected) && ctx.committed == old(ctx.committed)
    ensures ctx.hasCanvas == old(ctx.hasCanvas) && ctx.clipboard == old(ctx.clipboard)
    ensures ctx.currentTool == old(ctx.currentTool)
  {
    var els := ctx.elements;
    newIds := [];
    var i := 0;
    while i < |clip|
      invariant 0 <= i <= |clip| && ctx.Valid()
      invariant newIds == freshIds[..i]
      invariant ctx.hasCanvas ==> ctx.elements == els + Pasted(clip[..i], freshIds[..i])
      invariant !ctx.hasCanvas ==> ctx.elements == els
      invariant ctx.selected == old(ctx.selected) && ctx.committed == old(ctx.committed)
      invariant ctx.hasCanvas == old(ctx.hasCanvas) && ctx.clipboard == old(ctx.clipboard)
      invariant ctx.currentTool == old(ctx.currentTool)
    {
      var copy := PasteCopy(clip[i], freshIds[i]);
      PastedSnoc(clip, freshIds, i);
      ghost var done := Pasted(clip[..i], freshIds[..i]);
      assert els + done + [copy] == els + (done + [copy]);
      ctx.AddElement(copy);
      newIds := newIds + [copy.id];
      i := i + 1;
    }
    assert clip[..i] == clip && freshIds[..i] == freshIds;
  }

  /** The tool's keys.  Delete or Backspace removes every selected element, clears the
      selection and commits; ctrl+c copies the selected elements to the clipboard; ctrl+x
      copies them and then deletes as Delete does; ctrl+v adds a moved copy of each
      clipboard element under a fresh id, selects exactly the copies and commits; ctrl+a
      selects every element.  `freshIds` are the ids generated for a paste. */
  method OnKeyDown(ctx: Context, key: string, ctrl: bool, freshIds: seq<string>)
    requires ctx.Valid() && |freshIds| == |ctx.clipboard|
    modifies ctx
    ensures ctx.Valid() && ctx.hasCanvas == old(ctx.hasCanvas)
    ensures ctx.currentTool == old(ctx.currentTool)
    ensures var els := old(ctx.elements); var sel := old(ctx.selected);
      var commit := if ctx.hasCanvas then old(ctx.committed) + [ctx.elements] else old(ctx.committed);
      if (key == "Delete" || key == "Backspace") && |sel| > 0 then
        && ctx.elements == RemoveIds(els, IdSet(sel)) && ctx.selected == []
        && ctx.clipboard == old(ctx.clipboard) && ctx.committed == commit
      else if ctrl && key == "c" && |sel| > 0 then
        && ctx.clipboard == SelectedOf(els, sel)
        && ctx.elements == els && ctx.selected == sel && ctx.committed == old(ctx.committed)
      else if ctrl && key == "x" && |sel| > 0 then
        && ctx.clipboard == SelectedOf(els, sel)
        && ctx.elements == RemoveIds(els, IdSet(sel)) && ctx.selected == []
        && ctx.committed == commit
      else if ctrl && key == "v" && |old(ctx.clipboard)| > 0 then
        && ctx.elements == (if ctx.hasCanvas then els + Pasted(old(ctx.clipboard), freshIds) else els)
        && ctx.selected == freshIds && ctx.clipboard == old(ctx.clipboard)
        && ctx.committed == commit
      else if ctrl && key == "a" then
        && ctx.selected == Ids(els)
        && ctx.elements == els && ctx.clipboard == old(ctx.clipboard)
        && ctx.committed == old(ctx.committed)
      else
        && ctx.elements == els && ctx.selected == sel && ctx.clipboard == old(ctx.clipboard)
        && ctx.committed == old(ctx.committed)
  {
    var selected := ctx.selected;
    if (key == "Delete" || key == "Backspace") && |selected| > 0 {
      DeleteAll(ctx, selected);
      ctx.SetSelectedIds([]);
      ctx.CommitChanges();
    }
    if ctrl && key == "c" && |selected| > 0 {
      ctx.SetClipboard(SelectedOf(ctx.elements, selected));
    }
    if ctrl && key == "x" && |selected| > 0 {
      ctx.SetClipboard(SelectedOf(ctx.elements, selected));
      DeleteAll(ctx, selected);
      ctx.SetSelectedIds([]);
      ctx.CommitChanges();
    }
    if ctrl && key == "v" {
      var clip := ctx.clipboard;
      if |clip| > 0 {
        var newIds := PasteAll(ctx, clip, freshIds);
        ctx.SetSelectedIds(newIds);
        ctx.CommitChanges();
      }
    }
    if ctrl && key == "a" {
      ctx.SetSelectedIds(Ids(ctx.elements));
    }
  }
}
