/** The sidebar's duplicate and delete buttons, shown only while something is selected. */
module ActionButtons {
  import opened Base
  import opened Types
  import opened CanvasStore
  import opened EditorStore
  import opened Alignment

  /** How far a duplicate is moved from its original, along each axis. */
  const Offset: real := 20.0

  /** A duplicate: every property copied, under a new id, moved down and right. */
  function Duplicate(e: Element, freshId: string): Element
  {
    e.(id := freshId, x := e.x + Offset, y := e.y + Offset)
  }

  /** The duplicates of the selected elements, in order, the i-th under the i-th new id. */
  function Copies(sel: seq<Element>, freshIds: seq<string>): (r: seq<Element>)
    requires |freshIds| == |sel|
    ensures |r| == |sel|
  {
    seq(|sel|, i requires 0 <= i < |sel| => Duplicate(sel[i], freshIds[i]))
  }

  /** One duplicate per selected element, carrying exactly the new ids in order; moving a
      duplicate back and giving it back its id gives the original. */
  lemma CopiesMeaning(sel: seq<Element>, freshIds: seq<string>)
    requires |freshIds| == |sel|
    ensures Ids(Copies(sel, freshIds)) == freshIds
    ensures forall i :: 0 <= i < |sel| ==>
      var c := Copies(sel, freshIds)[i];
      c.x == sel[i].x + Offset && c.y == sel[i].y + Offset
      && c.(id := sel[i].id, x := c.x - Offset, y := c.y - Offset) == sel[i]
  {
    var r := Copies(sel, freshIds);
    assert forall i :: 0 <= i < |r| ==> Ids(r)[i] == freshIds[i];
  }

  /** Duplicating under new ids that are distinct and unused keeps every id on the canvas
      distinct. */
  lemma DuplicateKeepsIdsDistinct(els: seq<Element>, sel: seq<Element>, freshIds: seq<string>)
    requires |freshIds| == |sel| && DistinctIds(els)
    requires forall p, q :: 0 <= p < q < |freshIds| ==> freshIds[p] != freshIds[q]
    requires forall i, k :: 0 <= i < |freshIds| && 0 <= k < |els| ==> freshIds[i] != els[k].id
    ensures DistinctIds(els + Copies(sel, freshIds))
  {
    var all := els + Copies(sel, freshIds);
    forall p, q | 0 <= p < q < |all| ensures all[p].id != all[q].id {
      if q >= |els| {
        assert all[q].id == freshIds[q - |els|];
        if p >= |els| {
          assert all[p].id == freshIds[p - |els|];
        }
      }
    }
  }

  /** The loop of `handleDuplicate`: add each duplicate in turn and collect its id. */
  method AddCopies(store: Store, sel: seq<Element>, freshIds: seq<string>, now: int) returns (newIds: seq<string>)
    requires store.currentCanvas.Some? && |freshIds| == |sel|
    modifies store
    ensures newIds == freshIds
    ensures StoreState(store) == StoreAfter(old(store.currentCanvas), old(store.canvases), old(store.hasUnsavedChanges),
                                            old(store.currentCanvas).value.elements + Copies(sel, freshIds),
                                            sel != [], now)
  {
    ghost var current, canvases, unsaved := store.currentCanvas, store.canvases, store.hasUnsavedChanges;
    ghost var els := current.value.elements;
    newIds := [];
    for i := 0 to |sel|
      invariant newIds == freshIds[..i]
      invariant StoreState(store)
        == StoreAfter(current, canvases, unsaved, els + Copies(sel[..i], freshIds[..i]), i > 0, now)
    {
      var copy := Duplicate(sel[i], freshIds[i]);
      ghost var prev := els + Copies(sel[..i], freshIds[..i]);
      assert Copies(sel[..i + 1], freshIds[..i + 1]) == Copies(sel[..i], freshIds[..i]) + [copy];
      assert prev + [copy] == els + Copies(sel[..i + 1], freshIds[..i + 1]);
      StoreAfterStep(current, canvases, unsaved, prev, i > 0, now, prev + [copy]);
      store.AddElement(copy, now);
      newIds := newIds + [copy.id];
    }
    assert sel[..|sel|] == sel && freshIds[..|sel|] == freshIds;
  }

  /** `handleDuplicate`: one duplicate per selected element, added after everything else;
      the selection becomes exactly the new ids, in order.  History is not committed. */
  method DuplicateSelection(store: Store, editor: Editor, freshIds: seq<string>, now: int)
    requires |freshIds| == |SelectionIn(store.currentCanvas, editor.selectedElementIds)|
    modifies store, editor`selectedElementIds
    ensures var sel := SelectionIn(old(store.currentCanvas), old(editor.selectedElementIds));
      && (sel == [] ==> unchanged(store) && editor.selectedElementIds == old(editor.selectedElementIds))
      && (sel != [] ==>
            && StoreState(store)
               == StoreAfter(old(store.currentCanvas), old(store.canvases), old(store.hasUnsavedChanges),
                             old(store.currentCanvas).value.elements + Copies(sel, freshIds), true, now)
            && editor.selectedElementIds == freshIds)
    ensures unchanged(store.history)
  {
    var sel := SelectionIn(store.currentCanvas, editor.selectedElementIds);
    if sel == [] {
      return;
    }
    var newIds := AddCopies(store, sel, freshIds, now);
    editor.SetSelectedElements(Many(newIds));
  }

  /** The loop of `handleDelete`: one `deleteElement` per selected id. */
  method DeleteEach(store: Store, ids: seq<string>, now: int)
    requires store.currentCanvas.Some?
    modifies store
    ensures StoreState(store) == StoreAfter(old(store.currentCanvas), old(store.canvases), old(store.hasUnsavedChanges),
                                            RemoveIds(old(store.currentCanvas).value.elements, IdSet(ids)),
                                            ids != [], now)
  {
    ghost var current, canvases, unsaved := store.currentCanvas, store.canvases, store.hasUnsavedChanges;
    ghost var els := current.value.elements;
    RemoveIdsNone(els, {});
    for i := 0 to |ids|
      invariant StoreState(store)
        == StoreAfter(current, canvases, unsaved, RemoveIds(els, IdSet(ids[..i])), i > 0, now)
    {
      ghost var gone := IdSet(ids[..i]);
      ghost var prev := RemoveIds(els, gone);
      IdSetSnoc(ids, i);
      RemoveIdsTwice(els, gone, {ids[i]});
      StoreAfterStep(current, canvases, unsaved, prev, i > 0, now, RemoveId(prev, ids[i]));
      store.DeleteElement(ids[i], now);
    }
    assert ids[..|ids|] == ids;
  }

  /** `handleDelete`: every selected id is deleted and the selection emptied.  History is
      not committed. */
  method DeleteSelection(store: Store, editor: Editor, now: int)
    modifies store, editor`selectedElementIds
    ensures var sel := SelectionIn(old(store.currentCanvas), old(editor.selectedElementIds));
      && (sel == [] ==> unchanged(store) && editor.selectedElementIds == old(editor.selectedElementIds))
      && (sel != [] ==>
            && StoreState(store)
               == StoreAfter(old(store.currentCanvas), old(store.canvases), old(store.hasUnsavedChanges),
                             RemoveIds(old(store.currentCanvas).value.elements, IdSet(old(editor.selectedElementIds))),
                             true, now)
            && editor.selectedElementIds == [])
    ensures unchanged(store.history)
  {
    var sel := SelectionIn(store.currentCanvas, editor.selectedElementIds);
    if sel == [] {
      return;
    }
    assert sel[0].id in editor.selectedElementIds;
    DeleteEach(store, editor.selectedElementIds, now);
    editor.SetSelectedElements(Many([]));
  }

  /** After a delete, exactly the elements whose id was not selected remain, in order. */
  lemma DeleteMeaning(els: seq<Element>, ids: seq<string>)
    ensures forall e :: e in RemoveIds(els, IdSet(ids)) <==> e in els && e.id !in ids
  {
    RemoveIdsMembers(els, IdSet(ids));
  }
}
