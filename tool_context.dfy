/** The state adapter the canvas view hands to every tool event (`getToolState` in the canvas
    component): the elements of the current canvas, the selection, the clipboard, the current
    style, and the store actions a tool may call.

    Each action the adapter forwards to the canvas store also raises the view's dirty flag;
    `commitChanges` records the current elements in the history, here as the list
    `committed` of recorded snapshots.  With no current canvas the element list reads as
    empty and the element actions do nothing, as in the canvas store. */
module ToolContext {
  import opened Base
  import opened Types
  import opened CanvasStore

  class Context {
    var hasCanvas: bool
    var elements: seq<Element>
    var selected: seq<string>
    var clipboard: seq<Element>
    var currentTool: string
    var committed: seq<seq<Element>>
    var dirty: bool
    const style: Style

    ghost predicate Valid()
      reads this
    {
      !hasCanvas ==> elements == []
    }

    constructor(hasCanvas: bool, elements: seq<Element>, selected: seq<string>,
                clipboard: seq<Element>, currentTool: string, style: Style)
      requires !hasCanvas ==> elements == []
      ensures this.hasCanvas == hasCanvas && this.elements == elements
      ensures this.selected == selected && this.clipboard == clipboard
      ensures this.currentTool == currentTool && this.style == style
      ensures committed == [] && !dirty && Valid()
    {
      this.hasCanvas := hasCanvas;
      this.elements := elements;
      this.selected := selected;
      this.clipboard := clipboard;
      this.currentTool := currentTool;
      this.committed := [];
      this.dirty := false;
      this.style := style;
    }

    /** `addElement`. */
    method AddElement(e: Element)
      requires Valid()
      modifies this
      ensures Valid() && dirty
      ensures elements == if hasCanvas then old(elements) + [e] else old(elements)
      ensures hasCanvas == old(hasCanvas) && selected == old(selected)
      ensures clipboard == old(clipboard) && currentTool == old(currentTool)
      ensures committed == old(committed)
    {
      if hasCanvas {
        elements := elements + [e];
      }
      dirty := true;
    }

    /** `updateElement`. */
    method UpdateElement(id: string, p: Patch)
      requires Valid()
      modifies this
      ensures Valid() && dirty
      ensures elements == UpdateById(old(elements), id, p)
      ensures hasCanvas == old(hasCanvas) && selected == old(selected)
      ensures clipboard == old(clipboard) && currentTool == old(currentTool)
      ensures committed == old(committed)
    {
      elements := UpdateById(elements, id, p);
      dirty := true;
    }

    /** `deleteElement`. */
    method DeleteElement(id: string)
      requires Valid()
      modifies this
      ensures Valid() && dirty
      ensures elements == RemoveId(old(elements), id)
      ensures hasCanvas == old(hasCanvas) && selected == old(selected)
      ensures clipboard == old(clipboard) && currentTool == old(currentTool)
      ensures committed == old(committed)
    {
      elements := RemoveId(elements, id);
      dirty := true;
    }

    /** `setSelectedIds`. */
    method SetSelectedIds(ids: seq<string>)
      modifies this
      ensures selected == ids
      ensures elements == old(elements) && hasCanvas == old(hasCanvas) && dirty == old(dirty)
      ensures clipboard == old(clipboard) && currentTool == old(currentTool)
      ensures committed == old(committed)
    {
      selected := ids;
    }

    /** `setClipboard`. */
    method SetClipboard(els: seq<Element>)
      modifies this
      ensures clipboard == els
      ensures elements == old(elements) && hasCanvas == old(hasCanvas) && dirty == old(dirty)
      ensures selected == old(selected) && currentTool == old(currentTool)
      ensures committed == old(committed)
    {
      clipboard := els;
    }

    /** `setCurrentTool`. */
    method SetCurrentTool(name: string)
      modifies this
      ensures currentTool == name
      ensures elements == old(elements) && hasCanvas == old(hasCanvas) && dirty == old(dirty)
      ensures selected == old(selected) && clipboard == old(clipboard)
      ensures committed == old(committed)
    {
      currentTool := name;
    }

    /** `commitChanges`: record the current canvas in the history, if there is one. */
    method CommitChanges()
      modifies this
      ensures committed == if hasCanvas then old(committed) + [elements] else old(committed)
      ensures elements == old(elements) && hasCanvas == old(hasCanvas) && dirty == old(dirty)
      ensures selected == old(selected) && clipboard == old(clipboard)
      ensures currentTool == old(currentTool)
    {
      if hasCanvas {
        committed := committed + [elements];
      }
    }
  }
}
