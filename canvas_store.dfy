/** The canvas store: the canvas being edited, every known canvas by id, the unsaved-changes
    flag, and the element-list operations and history glue the tools call.

    Writes to browser storage are left out; the clock reading that stamps `updatedAt` is the
    `now` parameter. */
module CanvasStore {
  import opened Base
  import opened Types
  import opened History

  // ---------------------------------------------------------------- element lists

  /** The ids of a list of elements, in order. */
  function Ids(els: seq<Element>): (r: seq<string>)
    ensures |r| == |els| && forall i :: 0 <= i < |els| ==> r[i] == els[i].id
  {
    if els == [] then [] else [els[0].id] + Ids(els[1..])
  }

  /** `elements.map(el => el.id === id ? { ...el, ...updates } : el)`. */
  function UpdateById(els: seq<Element>, id: string, p: Patch): (r: seq<Element>)
    ensures |r| == |els|
    ensures forall i :: 0 <= i < |els| && els[i].id == id ==> r[i] == Merge(els[i], p)
    ensures forall i :: 0 <= i < |els| && els[i].id != id ==> r[i] == els[i]
  {
    if els == [] then []
    else [if els[0].id == id then Merge(els[0], p) else els[0]] + UpdateById(els[1..], id, p)
  }

  /** The position `elements.findIndex(el => el.id === id)` finds: the first element with
      that id, or None when there is none. */
  function FirstIndex(els: seq<Element>, id: string): (r: Option<nat>)
    ensures r.None? <==> forall i :: 0 <= i < |els| ==> els[i].id != id
    ensures r.Some? ==> r.value < |els| && els[r.value].id == id
                        && forall j :: 0 <= j < r.value ==> els[j].id != id
  {
    if els == [] then None
    else if els[0].id == id then Some(0)
    else match FirstIndex(els[1..], id)
      case None => None
      case Some(k) => Some(k + 1)
  }

  /** `elements.find(el => el.id === id)`. */
  function FindById(els: seq<Element>, id: string): (r: Option<Element>)
    ensures r.None? <==> id !in Ids(els)
    ensures r.Some? ==> r.value in els && r.value.id == id
    ensures FirstIndex(els, id).Some? ==> r == Some(els[FirstIndex(els, id).value])
  {
    match FirstIndex(els, id)
    case None => None
    case Some(i) => Some(els[i])
  }

  /** `elements.filter(el => !ids.has(el.id))`. */
  function RemoveIds(els: seq<Element>, ids: set<string>): (r: seq<Element>)
    ensures |r| <= |els|
  {
    if els == [] then [] else Keep(els[0], ids) + RemoveIds(els[1..], ids)
  }

  /** What the filter keeps of one element. */
  function Keep(e: Element, ids: set<string>): seq<Element>
  {
    if e.id in ids then [] else [e]
  }

  lemma RemoveIdsCons(e: Element, rest: seq<Element>, ids: set<string>)
    ensures RemoveIds([e] + rest, ids) == Keep(e, ids) + RemoveIds(rest, ids)
  {
    assert ([e] + rest)[1..] == rest;
  }

  /** The survivors are exactly the elements whose id is not to be removed. */
  lemma {:induction false} RemoveIdsMembers(els: seq<Element>, ids: set<string>)
    ensures forall e :: e in RemoveIds(els, ids) <==> e in els && e.id !in ids
  {
    if els != [] {
      RemoveIdsMembers(els[1..], ids);
      assert els == [els[0]] + els[1..];
    }
  }

  /** `elements.filter(el => el.id !== id)`. */
  function RemoveId(els: seq<Element>, id: string): seq<Element>
  {
    RemoveIds(els, {id})
  }

  /** The ids of a list, as a set. */
  function IdSet(ids: seq<string>): (r: set<string>)
    ensures forall id :: id in r <==> id in ids
  {
    set id | id in ids
  }

  /** One more id in the list is one more id in the set; none in the empty list. */
  lemma IdSetSnoc(ids: seq<string>, i: nat)
    requires i < |ids|
    ensures IdSet(ids[..i + 1]) == IdSet(ids[..i]) + {ids[i]}
    ensures IdSet(ids[..0]) == {}
  {
    assert forall x :: x in ids[..i + 1] <==> x in ids[..i] || x == ids[i];
  }

  /** `elements.filter(el => selectedIds.includes(el.id))`: the elements whose id is
      selected, in list order. */
  function SelectedOf(els: seq<Element>, ids: seq<string>): (r: seq<Element>)
    ensures forall e :: e in r <==> e in els && e.id in ids
  {
    if els == [] then []
    else
      var rest := SelectedOf(els[1..], ids);
      assert forall e :: e in els <==> e == els[0] || e in els[1..];
      (if els[0].id in ids then [els[0]] else []) + rest
  }

  /** An update leaves the ids, and so the order of the elements, as they were; an unknown
      id leaves the whole list unchanged. */
  lemma {:induction false} UpdateKeepsIds(els: seq<Element>, id: string, p: Patch)
    ensures Ids(UpdateById(els, id, p)) == Ids(els)
    ensures id !in Ids(els) ==> UpdateById(els, id, p) == els
  {
    if els != [] {
      UpdateKeepsIds(els[1..], id, p);
      assert Ids(els) == [els[0].id] + Ids(els[1..]);
    }
  }

  /** Filtering distributes over concatenation: the survivors keep their relative order. */
  lemma {:induction false} RemoveIdsConcat(a: seq<Element>, b: seq<Element>, ids: set<string>)
    ensures RemoveIds(a + b, ids) == RemoveIds(a, ids) + RemoveIds(b, ids)
  {
    if a == [] {
      assert a + b == b;
    } else {
      RemoveIdsConcat(a[1..], b, ids);
      ConsConcat(a, b);
      RemoveIdsCons(a[0], a[1..] + b, ids);
      var k, r, s := Keep(a[0], ids), RemoveIds(a[1..], ids), RemoveIds(b, ids);
      assert k + (r + s) == (k + r) + s;
    }
  }

  /** Removing in two rounds is removing the union at once, in either order. */
  lemma {:induction false} RemoveIdsTwice(els: seq<Element>, a: set<string>, b: set<string>)
    ensures RemoveIds(RemoveIds(els, a), b) == RemoveIds(els, a + b)
  {
    if els != [] {
      RemoveIdsTwice(els[1..], a, b);
      RemoveIdsConcat(Keep(els[0], a), RemoveIds(els[1..], a), b);
    }
  }

  /** A list from which nothing is to be removed comes back unchanged. */
  lemma {:induction false} RemoveIdsNone(els: seq<Element>, ids: set<string>)
    requires forall i :: 0 <= i < |els| ==> els[i].id !in ids
    ensures RemoveIds(els, ids) == els
  {
    if els != [] {
      RemoveIdsNone(els[1..], ids);
    }
  }

  /** Deleting the id of an element just added removes the addition: when no earlier element
      had that id, the list is back to what it was. */
  lemma AddThenDelete(els: seq<Element>, e: Element)
    ensures RemoveId(els + [e], e.id) == RemoveId(els, e.id)
    ensures e.id !in Ids(els) ==> RemoveId(els + [e], e.id) == els
  {
    RemoveIdsConcat(els, [e], {e.id});
    if e.id !in Ids(els) {
      RemoveIdsNone(els, {e.id});
    }
  }

  // ---------------------------------------------------------------- the store

  class Store {
    var currentCanvas: Option<Canvas>
    var canvases: map<string, Canvas>
    var hasUnsavedChanges: bool
    const history: HistoryStore<Canvas>

    ghost predicate Valid()
      reads this, history
    {
      history.Valid()
    }

    constructor(history: HistoryStore<Canvas>)
      requires history.Valid()
      ensures currentCanvas == None && canvases == map[] && !hasUnsavedChanges
      ensures this.history == history && Valid()
    {
      currentCanvas := None;
      canvases := map[];
      hasUnsavedChanges := false;
      this.history := history;
    }

    /** The common tail of every element operation: the updated canvas becomes current, is
        stored under its id and marks the store as unsaved. */
    method Publish(c: Canvas)
      modifies this
      ensures currentCanvas == Some(c) && canvases == old(canvases)[c.id := c]
      ensures hasUnsavedChanges
    {
      canvases := canvases[c.id := c];
      currentCanvas := Some(c);
      hasUnsavedChanges := true;
    }

    /** `addElement`: append at the end of the current canvas, if there is one. */
    method AddElement(e: Element, now: int)
      modifies this
      ensures old(currentCanvas).None? ==> unchanged(this)
      ensures old(currentCanvas).Some? ==>
        var c := old(currentCanvas).value.(elements := old(currentCanvas).value.elements + [e],
                                            updatedAt := now);
        currentCanvas == Some(c) && canvases == old(canvases)[c.id := c] && hasUnsavedChanges
    {
      if currentCanvas.None? {
        return;
      }
      var c := currentCanvas.value;
      Publish(c.(elements := c.elements + [e], updatedAt := now));
    }

    /** `updateElement`: shallow-merge the patch into the element with that id. */
    method UpdateElement(id: string, p: Patch, now: int)
      modifies this
      ensures old(currentCanvas).None? ==> unchanged(this)
      ensures old(currentCanvas).Some? ==>
        var c := old(currentCanvas).value.(
          elements := UpdateById(old(currentCanvas).value.elements, id, p), updatedAt := now);
        currentCanvas == Some(c) && canvases == old(canvases)[c.id := c] && hasUnsavedChanges
    {
      if currentCanvas.None? {
        return;
      }
      var c := currentCanvas.value;
      Publish(c.(elements := UpdateById(c.elements, id, p), updatedAt := now));
    }

    /** `deleteElement`: drop every element with that id. */
    method DeleteElement(id: string, now: int)
      modifies this
      ensures old(currentCanvas).None? ==> unchanged(this)
      ensures old(currentCanvas).Some? ==>
        var c := old(currentCanvas).value.(
          elements := RemoveId(old(currentCanvas).value.elements, id), updatedAt := now);
        currentCanvas == Some(c) && canvases == old(canvases)[c.id := c] && hasUnsavedChanges
    {
      if currentCanvas.None? {
        return;
      }
      var c := currentCanvas.value;
      Publish(c.(elements := RemoveId(c.elements, id), updatedAt := now));
    }

    /** `deleteElements`: drop every element whose id is in the given list. */
    method DeleteElements(ids: seq<string>, now: int)
      modifies this
      ensures old(currentCanvas).None? ==> unchanged(this)
      ensures old(currentCanvas).Some? ==>
        var c := old(currentCanvas).value.(
          elements := RemoveIds(old(currentCanvas).value.elements, set i | i in ids),
          updatedAt := now);
        currentCanvas == Some(c) && canvases == old(canvases)[c.id := c] && hasUnsavedChanges
    {
      if currentCanvas.None? {
        return;
      }
      var c := currentCanvas.value;
      Publish(c.(elements := RemoveIds(c.elements, set i | i in ids), updatedAt := now));
    }

    /** `renameCanvas`: an unknown id changes nothing; otherwise the stored canvas is renamed
        and replaces the current one only when their ids match, and the store counts as
        saved. */
    method RenameCanvas(id: string, name: string, now: int)
      modifies this
      ensures id !in old(canvases) ==> unchanged(this)
      ensures id in old(canvases) ==>
        var c := old(canvases)[id].(name := name, updatedAt := now);
        && canvases == old(canvases)[id := c]
        && currentCanvas == (if old(currentCanvas).Some? && old(currentCanvas).value.id == id
                             then Some(c) else old(currentCanvas))
        && !hasUnsavedChanges
    {
      if id !in canvases {
        return;
      }
      var c := canvases[id].(name := name, updatedAt := now);
      canvases := canvases[id := c];
      if currentCanvas.Some? && currentCanvas.value.id == id {
        currentCanvas := Some(c);
      }
      hasUnsavedChanges := false;
    }

    /** `deleteCanvas` (the later of its two definitions, which is the one in effect): remove
        the id and close the current canvas only if it is the one deleted. */
    method DeleteCanvas(id: string)
      modifies this
      ensures canvases == old(canvases) - {id}
      ensures currentCanvas == (if old(currentCanvas).Some? && old(currentCanvas).value.id == id
                                then None else old(currentCanvas))
      ensures !hasUnsavedChanges
    {
      canvases := canvases - {id};
      if currentCanvas.Some? && currentCanvas.value.id == id {
        currentCanvas := None;
      }
      hasUnsavedChanges := false;
    }

    /** `commitToHistory`: record the current canvas, if there is one. */
    method CommitToHistory()
      requires Valid()
      modifies history
      ensures Valid()
      ensures old(currentCanvas).Some? ==>
        history.State() == AfterPush(old(history.State()), currentCanvas.value)
      ensures old(currentCanvas).None? ==> history.State() == old(history.State())
    {
      if currentCanvas.Some? {
        history.PushState(currentCanvas.value);
      }
    }

    /** `undo`: with a current canvas and at least two history entries, restore the previous
        state and mirror it into the canvas map; otherwise do nothing. */
    method Undo()
      requires Valid()
      modifies this, history
      ensures Valid()
      ensures old(currentCanvas).None? || !UndoAvailable(old(history.State())) ==>
        unchanged(this) && history.State() == old(history.State())
      ensures old(currentCanvas).Some? && UndoAvailable(old(history.State())) ==>
        var (s, prev) := AfterUndo(old(history.State()), old(currentCanvas).value);
        && history.State() == s
        && currentCanvas == prev
        && canvases == old(canvases)[prev.value.id := prev.value]
        && hasUnsavedChanges
    {
      if currentCanvas.None? {
        return;
      }
      if |history.undoStack| < 2 {
        return;
      }
      var previous := history.Undo(currentCanvas.value);
      if previous.Some? {
        Publish(previous.value);
      }
    }

    /** `redo`: with a current canvas and a non-empty redo stack, restore the most recently
        undone state and mirror it into the canvas map; otherwise do nothing. */
    method Redo()
      requires Valid()
      modifies this, history
      ensures Valid()
      ensures old(currentCanvas).None? || !RedoAvailable(old(history.State())) ==>
        unchanged(this) && history.State() == old(history.State())
      ensures old(currentCanvas).Some? && RedoAvailable(old(history.State())) ==>
        var (s, next) := AfterRedo(old(history.State()), old(currentCanvas).value);
        && history.State() == s
        && currentCanvas == next
        && canvases == old(canvases)[next.value.id := next.value]
        && hasUnsavedChanges
    {
      if currentCanvas.None? {
        return;
      }
      var next := history.Redo(currentCanvas.value);
      if next.Some? {
        Publish(next.value);
      }
    }
  }

  // ---------------------------------------------------------------- runs of element writes

  /** The store's current canvas, canvas map and unsaved flag. */
  function StoreState(store: Store): (Option<Canvas>, map<string, Canvas>, bool)
    reads store
  {
    (store.currentCanvas, store.canvases, store.hasUnsavedChanges)
  }

  /** The store's three fields after a run of element writes left the current canvas's
      elements as `els`: all as they were when nothing was written or there is no canvas;
      otherwise the canvas carries `els`, is stamped `now` and stored, and the store is
      unsaved. */
  function StoreAfter(current: Option<Canvas>, canvases: map<string, Canvas>, unsaved: bool,
                      els: seq<Element>, sent: bool, now: int): (Option<Canvas>, map<string, Canvas>, bool)
  {
    if current.None? || !sent then (current, canvases, unsaved)
    else
      var c := current.value.(elements := els, updatedAt := now);
      (Some(c), canvases[c.id := c], true)
  }

  /** One more element write, turning the elements into `next`, extends the run. */
  lemma StoreAfterStep(current: Option<Canvas>, canvases: map<string, Canvas>, unsaved: bool,
                       els: seq<Element>, sent: bool, now: int, next: seq<Element>)
    requires current.Some? && (!sent ==> els == current.value.elements)
    ensures var (c1, m1, _) := StoreAfter(current, canvases, unsaved, els, sent, now);
      c1.Some? && c1.value.elements == els
      && var c := c1.value.(elements := next, updatedAt := now);
      (Some(c), m1[c.id := c], true) == StoreAfter(current, canvases, unsaved, next, true, now)
  {
    var c0 := current.value;
    var c := c0.(elements := next, updatedAt := now);
    if sent {
      var c1 := c0.(elements := els, updatedAt := now);
      assert canvases[c1.id := c1][c.id := c] == canvases[c.id := c];
    }
  }
}
