/** The sidebar's alignment buttons: the group box of the selected elements and the six
    operations that line them up along its left, centre or right edge, or its top, middle
    or bottom edge. */
module Alignment {
  import opened Base
  import opened Types
  import opened CanvasStore
  import Export

  datatype Align = Left | Center | Right | Top | Middle | Bottom

  /** Left, centre and right move elements horizontally; the others vertically. */
  predicate Horizontal(a: Align) { a == Left || a == Center || a == Right }

  /** The group box `getBoundingBox` computes: the same min/max fold as the export bounds. */
  function GroupBox(sel: seq<Element>): Export.Bounds
  {
    Export.CanvasBounds(sel)
  }

  /** The coordinate an element of width (or height) `size` is moved to. */
  function Target(a: Align, box: Export.Bounds, size: real): real
  {
    match a
    case Left => box.minX
    case Center => (box.minX + box.maxX) / 2.0 - size / 2.0
    case Right => box.maxX - size
    case Top => box.minY
    case Middle => (box.minY + box.maxY) / 2.0 - size / 2.0
    case Bottom => box.maxY - size
  }

  /** `selectedElements.find(el => el.id === id)?.width || 0` (the height for vertical
      operations). */
  function SizeOf(a: Align, sel: seq<Element>, id: string): real
  {
    match FindById(sel, id)
    case None => 0.0
    case Some(e) => if Horizontal(a) then e.width else e.height
  }

  /** The update sent for one selected id: only x, or only y. */
  function AlignPatch(a: Align, box: Export.Bounds, sel: seq<Element>, id: string): Patch
  {
    var t := Target(a, box, SizeOf(a, sel, id));
    if Horizontal(a) then NoChange.(x := Some(t)) else NoChange.(y := Some(t))
  }

  /** The element list after the updates for `ids`, one after the other. */
  function AlignAll(els: seq<Element>, a: Align, box: Export.Bounds, sel: seq<Element>, ids: seq<string>)
    : (r: seq<Element>)
    ensures |r| == |els|
    decreases |ids|
  {
    if ids == [] then els
    else
      var last := ids[|ids| - 1];
      UpdateById(AlignAll(els, a, box, sel, ids[..|ids| - 1]), last, AlignPatch(a, box, sel, last))
  }

  /** Element by element, the updates move exactly the elements whose id is selected, each
      by its own patch, however often its id is listed. */
  lemma {:induction false} AlignAllPointwise(els: seq<Element>, a: Align, box: Export.Bounds,
                                             sel: seq<Element>, ids: seq<string>)
    ensures |AlignAll(els, a, box, sel, ids)| == |els|
    ensures forall j :: 0 <= j < |els| ==>
      AlignAll(els, a, box, sel, ids)[j]
        == if els[j].id in ids then Merge(els[j], AlignPatch(a, box, sel, els[j].id)) else els[j]
    decreases |ids|
  {
    if ids != [] {
      var init := ids[..|ids| - 1];
      var last := ids[|ids| - 1];
      AlignAllPointwise(els, a, box, sel, init);
      var prev := AlignAll(els, a, box, sel, init);
      forall j | 0 <= j < |els|
        ensures AlignAll(els, a, box, sel, ids)[j]
          == if els[j].id in ids then Merge(els[j], AlignPatch(a, box, sel, els[j].id)) else els[j]
      {
        assert forall x :: x in ids <==> x in init || x == last;
        if els[j].id == last && els[j].id in init {
          MergeTwice(els[j], AlignPatch(a, box, sel, last));
        }
      }
    }
  }

  /** The ids of a list are distinct. */
  predicate DistinctIds(els: seq<Element>)
  {
    forall p, q :: 0 <= p < q < |els| ==> els[p].id != els[q].id
  }

  /** With distinct ids, looking a selected element up among the selected ones finds that
      very element. */
  lemma {:induction false} FindSelected(els: seq<Element>, ids: seq<string>, j: nat)
    requires DistinctIds(els) && j < |els| && els[j].id in ids
    ensures FindById(SelectedOf(els, ids), els[j].id) == Some(els[j])
  {
    var sel := SelectedOf(els, ids);
    assert els[j] in sel;
    var k :| 0 <= k < |sel| && sel[k] == els[j];
    assert Ids(sel)[k] == els[j].id;
    var r := FindById(sel, els[j].id);
    assert r.value in els;
    var m :| 0 <= m < |els| && els[m] == r.value;
    assert els[m].id == els[j].id;
  }

  /** What each operation achieves on a canvas with distinct ids: every selected element
      gets its left edge, horizontal centre or right edge (its top edge, vertical centre or
      bottom edge) on the group box's matching line, and nothing but that coordinate
      changes. */
  lemma AlignMeaning(els: seq<Element>, ids: seq<string>, a: Align, j: nat)
    requires DistinctIds(els) && j < |els| && els[j].id in ids
    ensures var sel := SelectedOf(els, ids); var box := GroupBox(sel);
      var r := AlignAll(els, a, box, sel, ids)[j];
      && (Horizontal(a) ==> r == els[j].(x := r.x))
      && (!Horizontal(a) ==> r == els[j].(y := r.y))
      && (a == Left ==> r.x == box.minX)
      && (a == Center ==> r.x + r.width / 2.0 == (box.minX + box.maxX) / 2.0)
      && (a == Right ==> r.x + r.width == box.maxX)
      && (a == Top ==> r.y == box.minY)
      && (a == Middle ==> r.y + r.height / 2.0 == (box.minY + box.maxY) / 2.0)
      && (a == Bottom ==> r.y + r.height == box.maxY)
  {
    var sel := SelectedOf(els, ids);
    AlignAllPointwise(els, a, GroupBox(sel), sel, ids);
    FindSelected(els, ids, j);
  }

  /** Elements whose id is not selected stay as they were. */
  lemma AlignKeepsOthers(els: seq<Element>, ids: seq<string>, a: Align, j: nat)
    requires j < |els| && els[j].id !in ids
    ensures var sel := SelectedOf(els, ids); AlignAll(els, a, GroupBox(sel), sel, ids)[j] == els[j]
  {
    var sel := SelectedOf(els, ids);
    AlignAllPointwise(els, a, GroupBox(sel), sel, ids);
  }

  /** The group box of two or more elements holds each of them and touches one on each
      side, so left alignment moves nothing further left than the leftmost element. */
  lemma GroupBoxTight(sel: seq<Element>)
    requires |sel| >= 2
    ensures var b := GroupBox(sel);
      && (forall i :: 0 <= i < |sel| ==> b.minX <= sel[i].x && sel[i].x + sel[i].width <= b.maxX)
      && (forall i :: 0 <= i < |sel| ==> b.minY <= sel[i].y && sel[i].y + sel[i].height <= b.maxY)
      && (exists i :: 0 <= i < |sel| && sel[i].x == b.minX)
      && (exists i :: 0 <= i < |sel| && sel[i].x + sel[i].width == b.maxX)
  {
    Export.BoundsProperties(sel);
  }

  /** The elements the sidebar hands to its buttons: those of the current canvas whose id
      is selected, none without a canvas. */
  function SelectionIn(current: Option<Canvas>, ids: seq<string>): seq<Element>
  {
    if current.Some? then SelectedOf(current.value.elements, ids) else []
  }

  /** The loop of an align button: one `updateElement` per selected id. */
  method UpdateEach(store: Store, a: Align, box: Export.Bounds, sel: seq<Element>, ids: seq<string>, now: int)
    requires store.currentCanvas.Some?
    modifies store
    ensures StoreState(store) == StoreAfter(old(store.currentCanvas), old(store.canvases), old(store.hasUnsavedChanges),
                                            AlignAll(old(store.currentCanvas).value.elements, a, box, sel, ids),
                                            ids != [], now)
  {
    ghost var current, canvases, unsaved := store.currentCanvas, store.canvases, store.hasUnsavedChanges;
    ghost var els := current.value.elements;
    for i := 0 to |ids|
      invariant StoreState(store) == StoreAfter(current, canvases, unsaved, AlignAll(els, a, box, sel, ids[..i]), i > 0, now)
    {
      assert ids[..i + 1][..i] == ids[..i];
      var p := AlignPatch(a, box, sel, ids[i]);
      ghost var prev := AlignAll(els, a, box, sel, ids[..i]);
      StoreAfterStep(current, canvases, unsaved, prev, i > 0, now, UpdateById(prev, ids[i], p));
      store.UpdateElement(ids[i], p, now);
    }
    assert ids[..|ids|] == ids;
  }

  /** An align button: nothing for fewer than 2 selected elements; otherwise one
      `updateElement` per selected id, with the target computed from the group box. */
  method AlignSelection(store: Store, a: Align, ids: seq<string>, now: int)
    modifies store
    ensures |SelectionIn(old(store.currentCanvas), ids)| < 2 ==> unchanged(store)
    ensures |SelectionIn(old(store.currentCanvas), ids)| >= 2 ==>
      var sel := SelectionIn(old(store.currentCanvas), ids);
      StoreState(store) == StoreAfter(old(store.currentCanvas), old(store.canvases), old(store.hasUnsavedChanges),
                                       AlignAll(old(store.currentCanvas).value.elements, a, GroupBox(sel), sel, ids),
                                       ids != [], now)
  {
    if store.currentCanvas.None? {
      return;
    }
    var sel := SelectedOf(store.currentCanvas.value.elements, ids);
    if |sel| < 2 {
      return;
    }
    var box := Export.GetCanvasBounds(sel);
    UpdateEach(store, a, box, sel, ids, now);
  }
}
