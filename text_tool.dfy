/** The text tool: a press on a text element edits it, a press elsewhere creates an empty
    text element and edits that; finishing an edit keeps the trimmed text, sized to fit, or
    deletes the element when nothing but white space is left, and hands control back to the
    select tool.

    The on-screen editor (a textarea overlay with its listeners and timers) is not modelled;
    what the user types is the `draft` field, and the listeners that finish or cancel the edit
    call `FinishEditing` as the key handler does.  The width of a line in a given font is the
    `lineWidth` parameter, standing for the canvas' `measureText`. */
module TextTool {
  import opened Base
  import opened Types
  import opened Geometry
  import opened Strings
  import opened CanvasStore
  import opened ToolContext

  /** The font `measureText` sets before measuring: weight, size in pixels and family. */
  datatype Font = Font(weight: string, size: real, family: string)

  datatype Size = Size(width: real, height: real)

  const MinTextWidth: real := 100.0
  const MinTextHeight: real := 24.0
  const DefaultFontSize: real := 20.0

  // ---------------------------------------------------------------- measuring

  /** The widest of the lines in the font, or 0 for no lines. */
  function WidestLine(lines: seq<string>, font: Font, lineWidth: (Font, string) -> real): (r: real)
    ensures r >= 0.0
    ensures forall i :: 0 <= i < |lines| ==> lineWidth(font, lines[i]) <= r
    ensures r == 0.0 || exists i :: 0 <= i < |lines| && r == lineWidth(font, lines[i])
  {
    if lines == [] then 0.0
    else
      var init := lines[..|lines| - 1];
      var w := WidestLine(init, font, lineWidth);
      assert forall i :: 0 <= i < |init| ==> init[i] == lines[i];
      Max(w, lineWidth(font, lines[|lines| - 1]))
  }

  /** The height of `lineCount` lines: 1.4 times the font size (20 when absent) each. */
  function LinesHeight(lineCount: nat, fontSize: real): real
  {
    lineCount as real * (NumOr(fontSize, DefaultFontSize) * 1.4)
  }

  /** What `measureText` returns: the widest line plus 10 of padding, but at least 100 wide,
      and 1.4 line heights per line, but at least 24 high.  So the box is never smaller than
      100 by 24, every line fits with 10 to spare, and the width is either the minimum or
      exactly the widest line's. */
  function Measured(text: string, font: Font, lineWidth: (Font, string) -> real): (s: Size)
    ensures s.width >= MinTextWidth && s.height >= MinTextHeight
    ensures var lines := Split(text, '\n');
      && (forall i :: 0 <= i < |lines| ==> lineWidth(font, lines[i]) + 10.0 <= s.width)
      && (s.width == MinTextWidth
          || exists i :: 0 <= i < |lines| && s.width == lineWidth(font, lines[i]) + 10.0)
  {
    var lines := Split(text, '\n');
    Size(Max(MinTextWidth, WidestLine(lines, font, lineWidth) + 10.0),
         Max(MinTextHeight, LinesHeight(|lines|, font.size)))
  }

  /** `measureText`, with its loop over the lines. */
  method MeasureText(text: string, font: Font, lineWidth: (Font, string) -> real) returns (s: Size)
    ensures s == Measured(text, font, lineWidth)
  {
    var lines := Split(text, '\n');
    var maxWidth := 0.0;
    var i := 0;
    while i < |lines|
      invariant 0 <= i <= |lines|
      invariant maxWidth == WidestLine(lines[..i], font, lineWidth)
    {
      assert lines[..i + 1][..i] == lines[..i];
      maxWidth := Max(maxWidth, lineWidth(font, lines[i]));
      i := i + 1;
    }
    assert lines[..i] == lines;
    s := Size(Max(MinTextWidth, maxWidth + 10.0), Max(MinTextHeight, LinesHeight(|lines|, font.size)));
  }

  /** The measured box holds one line height per line, and there is one line more than the
      text has line breaks. */
  lemma MeasuredHeight(text: string, font: Font, lineWidth: (Font, string) -> real)
    ensures Measured(text, font, lineWidth).height >= LinesHeight(Count(text, '\n') + 1, font.size)
  {
    SplitLength(text, '\n');
  }

  // ---------------------------------------------------------------- hit test

  /** A text element whose box contains the point, edges included. */
  predicate TextHit(p: Point, e: Element)
  {
    e.kind == "text" && InBox(p, BoxOf(e))
  }

  /** The index `getTextElementAtPoint` picks: the last hit text element in stacking order. */
  function TextAt(p: Point, els: seq<Element>): (r: Option<nat>)
    ensures r.Some? ==> r.value < |els|
  {
    if |els| == 0 then None
    else if TextHit(p, els[|els| - 1]) then Some(|els| - 1)
    else TextAt(p, els[..|els| - 1])
  }

  /** The chosen element is a hit text element with no hit text element above it, and there
      is none only when no text element is hit. */
  lemma {:induction false} TextAtSpec(p: Point, els: seq<Element>)
    ensures TextAt(p, els).Some? ==>
      var i := TextAt(p, els).value;
      TextHit(p, els[i]) && forall j :: i < j < |els| ==> !TextHit(p, els[j])
    ensures TextAt(p, els).None? <==> forall j :: 0 <= j < |els| ==> !TextHit(p, els[j])
  {
    if |els| > 0 && !TextHit(p, els[|els| - 1]) {
      var init := els[..|els| - 1];
      TextAtSpec(p, init);
      assert forall j :: 0 <= j < |init| ==> init[j] == els[j];
    }
  }

  /** `getTextElementAtPoint`: the scan from the top of the stack down. */
  method GetTextElementAtPoint(p: Point, els: seq<Element>) returns (r: Option<nat>)
    ensures r == TextAt(p, els)
  {
    var i := |els|;
    assert els[..i] == els;
    while i > 0
      invariant 0 <= i <= |els|
      invariant TextAt(p, els) == TextAt(p, els[..i])
    {
      assert els[..i][..i - 1] == els[..i - 1];
      var e := els[i - 1];
      if e.kind == "text" && e.x <= p.x && p.x <= e.x + e.width && e.y <= p.y && p.y <= e.y + e.height {
        return Some(i - 1);
      }
      i := i - 1;
    }
    return None;
  }

  // ---------------------------------------------------------------- creating and finishing

  /** The element `createNewText` adds at `p`, with `freshId` for the generated id. */
  function NewText(p: Point, style: Style, freshId: string): (e: Element)
    ensures e.id == freshId && e.kind == "text" && e.text == ""
    ensures e.x == p.x && e.y == p.y && e.width == MinTextWidth && e.height == MinTextHeight
    ensures e.fontSize == DefaultFontSize && e.fontFamily != ""
    ensures e.stroke == style.stroke && e.opacity == style.opacity
  {
    Blank(freshId, "text").(x := p.x, y := p.y, width := 100.0, height := 24.0, text := "",
                            stroke := style.stroke, fontSize := 20.0,
                            fontFamily := StrOr(style.fontFamily, "Arial, sans-serif"),
                            fontWeight := "normal", textAlign := "left", opacity := style.opacity)
  }

  /** The text an edit ends with: nothing when cancelled, the trimmed draft otherwise. */
  function FinalText(draft: string, cancel: bool): string
  {
    if cancel then "" else Trim(draft)
  }

  /** The update `finishEditing` applies to a non-empty text: the text, the size it measures
      in the element's own font, and the font size it already had (20 when it had none). */
  function EditPatch(els: seq<Element>, id: string, text: string,
                     lineWidth: (Font, string) -> real): (p: Patch)
    ensures p.text == Some(text) && p.x.None? && p.y.None? && p.points.None? && p.ends.None?
    ensures p.fontSize.Some? && p.fontSize.value != 0.0
    ensures p.width.Some? && p.width.value >= MinTextWidth
    ensures p.height.Some? && p.height.value >= MinTextHeight
  {
    var cur := FindById(els, id);
    var fontSize := if cur.Some? then NumOr(cur.value.fontSize, DefaultFontSize) else DefaultFontSize;
    var family := if cur.Some? then StrOr(cur.value.fontFamily, "Arial, sans-serif") else "Arial, sans-serif";
    var weight := if cur.Some? then StrOr(cur.value.fontWeight, "normal") else "normal";
    var size := Measured(text, Font(weight, fontSize, family), lineWidth);
    NoChange.(text := Some(text), width := Some(size.width), height := Some(size.height),
              fontSize := Some(fontSize))
  }

  /** The element list after finishing an edit of `id` with final text `text`. */
  function AfterFinish(els: seq<Element>, id: string, text: string,
                       lineWidth: (Font, string) -> real): seq<Element>
  {
    if id == "" then els
    else if text == "" then RemoveId(els, id)
    else UpdateById(els, id, EditPatch(els, id, text, lineWidth))
  }

  /** An empty final text removes every element of that id and keeps all others. */
  lemma AfterFinishEmpty(els: seq<Element>, id: string, lineWidth: (Font, string) -> real)
    requires id != ""
    ensures forall e :: e in AfterFinish(els, id, "", lineWidth) <==> e in els && e.id != id
  {
    RemoveIdsMembers(els, {id});
  }

  /** Any other final text keeps every element in place, and the edited one shows that
      text, is at least 100 by 24, and keeps the font size it had (or 20 if it had none). */
  lemma AfterFinishEdit(els: seq<Element>, id: string, text: string,
                        lineWidth: (Font, string) -> real)
    requires id != "" && text != ""
    ensures var r := AfterFinish(els, id, text, lineWidth);
      && Ids(r) == Ids(els)
      && forall i :: 0 <= i < |els| && els[i].id == id ==>
           && r[i].text == text && r[i].width >= MinTextWidth && r[i].height >= MinTextHeight
           && r[i].fontSize == NumOr(FindById(els, id).value.fontSize, DefaultFontSize)
           && r[i].x == els[i].x && r[i].y == els[i].y && r[i].kind == els[i].kind
  {
    UpdateKeepsIds(els, id, EditPatch(els, id, text, lineWidth));
    if exists i :: 0 <= i < |els| && els[i].id == id {
      assert FindById(els, id).Some?;
    }
  }

  /** Cancelling the edit of a text element just created puts the element list back as it
      was before the press, whatever the user typed. */
  lemma CreateThenCancel(els: seq<Element>, p: Point, style: Style, freshId: string,
                         draft: string, lineWidth: (Font, string) -> real)
    requires freshId != "" && freshId !in Ids(els)
    ensures AfterFinish(els + [NewText(p, style, freshId)], freshId, FinalText(draft, true), lineWidth)
         == els
  {
    AddThenDelete(els, NewText(p, style, freshId));
  }

  /** Finishing with a draft of nothing but white space deletes the element as cancelling
      does; any other draft keeps it. */
  lemma BlankDraftDeletes(draft: string)
    ensures FinalText(draft, false) == "" <==> forall i :: 0 <= i < |draft| ==> IsWhiteSpace(draft[i])
  {
    TrimEmptyIff(draft);
  }

  // ---------------------------------------------------------------- the tool

  class TextTool {
    var isEditing: bool
    var editingElementId: string   // "" for none
    var draft: string              // the editor's current value

    ghost predicate Valid()
      reads this
    {
      !isEditing ==> editingElementId == "" && draft == ""
    }

    /** The element list once the current edit, if any, is finished. */
    function Finishing(els: seq<Element>, cancel: bool, lineWidth: (Font, string) -> real): seq<Element>
      reads this
    {
      if isEditing then AfterFinish(els, editingElementId, FinalText(draft, cancel), lineWidth)
      else els
    }

    /** Whether finishing the current edit commits and switches tools. */
    predicate Commits()
      reads this
    {
      isEditing && editingElementId != ""
    }

    constructor()
      ensures !isEditing && editingElementId == "" && draft == "" && Valid()
    {
      isEditing := false;
      editingElementId := "";
      draft := "";
    }

    /** Typing into the editor replaces its value. */
    method Input(value: string)
      modifies this
      ensures isEditing == old(isEditing) && editingElementId == old(editingElementId)
      ensures draft == if isEditing then value else old(draft)
    {
      if isEditing {
        draft := value;
      }
    }

    /** `finishEditing(state, cancel)`: deletes the element for an empty final text, updates
        it otherwise, commits once and switches to the select tool; then the edit is over.
        Without an edit in progress nothing happens. */
    method FinishEditing(ctx: Context, cancel: bool, lineWidth: (Font, string) -> real)
      requires ctx.Valid() && Valid()
      modifies this, ctx
      ensures !isEditing && editingElementId == "" && draft == "" && Valid() && ctx.Valid()
      ensures ctx.elements == old(Finishing(ctx.elements, cancel, lineWidth))
      ensures ctx.committed == if old(Commits()) && ctx.hasCanvas
                               then old(ctx.committed) + [ctx.elements] else old(ctx.committed)
      ensures ctx.currentTool == if old(Commits()) then "select" else old(ctx.currentTool)
      ensures ctx.hasCanvas == old(ctx.hasCanvas) && ctx.selected == old(ctx.selected)
      ensures ctx.clipboard == old(ctx.clipboard)
    {
      if !isEditing {
        return;
      }
      var text := if cancel then "" else Trim(draft);
      if editingElementId != "" {
        if text == "" {
          ctx.DeleteElement(editingElementId);
        } else {
          var els := ctx.elements;
          var cur := FindById(els, editingElementId);
          var fontSize := if cur.Some? then NumOr(cur.value.fontSize, DefaultFontSize) else DefaultFontSize;
          var family := if cur.Some? then StrOr(cur.value.fontFamily, "Arial, sans-serif")
                        else "Arial, sans-serif";
          var weight := if cur.Some? then StrOr(cur.value.fontWeight, "normal") else "normal";
          var size := MeasureText(text, Font(weight, fontSize, family), lineWidth);
          ctx.UpdateElement(editingElementId,
            NoChange.(text := Some(text), width := Some(size.width), height := Some(size.height),
                      fontSize := Some(fontSize)));
        }
        ctx.CommitChanges();
        ctx.SetCurrentTool("select");
      }
      isEditing := false;
      editingElementId := "";
      draft := "";
    }

    /** `startEditing(element)`: finishes an edit in progress, then edits `e`, starting from
        its text. */
    method StartEditing(ctx: Context, e: Element, lineWidth: (Font, string) -> real)
      requires ctx.Valid() && Valid()
      modifies this, ctx
      ensures isEditing && editingElementId == e.id && draft == e.text && ctx.Valid() && Valid()
      ensures ctx.elements == old(Finishing(ctx.elements, false, lineWidth))
      ensures ctx.committed == if old(Commits()) && ctx.hasCanvas
                               then old(ctx.committed) + [ctx.elements] else old(ctx.committed)
      ensures ctx.currentTool == if old(Commits()) then "select" else old(ctx.currentTool)
      ensures ctx.hasCanvas == old(ctx.hasCanvas) && ctx.selected == old(ctx.selected)
      ensures ctx.clipboard == old(ctx.clipboard)
    {
      if isEditing {
        FinishEditing(ctx, false, lineWidth);
      }
      isEditing := true;
      editingElementId := e.id;
      draft := e.text;
    }

    /** `startEditingExisting(id)`: edits the element of that id if it is a text element. */
    method StartEditingExisting(ctx: Context, id: string, lineWidth: (Font, string) -> real)
      requires ctx.Valid() && Valid()
      modifies this, ctx
      ensures ctx.Valid() && Valid()
      ensures var found := FindById(old(ctx.elements), id);
        if found.Some? && found.value.kind == "text" then
          && isEditing && editingElementId == id && draft == found.value.text
          && ctx.elements == old(Finishing(ctx.elements, false, lineWidth))
          && ctx.committed == (if old(Commits()) && ctx.hasCanvas
                               then old(ctx.committed) + [ctx.elements] else old(ctx.committed))
          && ctx.currentTool == (if old(Commits()) then "select" else old(ctx.currentTool))
        else
          && isEditing == old(isEditing) && editingElementId == old(editingElementId)
          && draft == old(draft) && ctx.elements == old(ctx.elements)
          && ctx.committed == old(ctx.committed) && ctx.currentTool == old(ctx.currentTool)
      ensures ctx.hasCanvas == old(ctx.hasCanvas) && ctx.selected == old(ctx.selected)
      ensures ctx.clipboard == old(ctx.clipboard)
    {
      var found := FindById(ctx.elements, id);
      if found.Some? && found.value.kind == "text" {
        StartEditing(ctx, found.value, lineWidth);
      }
    }

    /** `createNewText`: adds an empty text element at `p` and edits it. */
    method CreateNewText(ctx: Context, p: Point, freshId: string, lineWidth: (Font, string) -> real)
      requires ctx.Valid() && Valid()
      modifies this, ctx
      ensures isEditing && editingElementId == freshId && draft == "" && ctx.Valid() && Valid()
      ensures var added := if ctx.hasCanvas then old(ctx.elements) + [NewText(p, ctx.style, freshId)]
                           else old(ctx.elements);
        ctx.elements == old(Finishing(added, false, lineWidth))
      ensures ctx.committed == if old(Commits()) && ctx.hasCanvas
                               then old(ctx.committed) + [ctx.elements] else old(ctx.committed)
      ensures ctx.currentTool == if old(Commits()) then "select" else old(ctx.currentTool)
      ensures ctx.hasCanvas == old(ctx.hasCanvas) && ctx.selected == old(ctx.selected)
      ensures ctx.clipboard == old(ctx.clipboard)
    {
      var e := NewText(p, ctx.style, freshId);
      ctx.AddElement(e);
      StartEditing(ctx, e, lineWidth);
    }

    /** A press is ignored during an edit; otherwise it edits the topmost text element under
        the pointer, or creates a new one there. */
    method OnMouseDown(ctx: Context, p: Point, freshId: string, lineWidth: (Font, string) -> real)
      requires ctx.Valid() && Valid()
      modifies this, ctx
      ensures ctx.Valid() && Valid()
      ensures old(isEditing) ==>
        && isEditing && editingElementId == old(editingElementId) && draft == old(draft)
        && ctx.elements == old(ctx.elements)
      ensures !old(isEditing) && TextAt(p, old(ctx.elements)).Some? ==>
        var e := old(ctx.elements)[TextAt(p, old(ctx.elements)).value];
        isEditing && editingElementId == e.id && draft == e.text && ctx.elements == old(ctx.elements)
      ensures !old(isEditing) && TextAt(p, old(ctx.elements)).None? ==>
        && isEditing && editingElementId == freshId && draft == ""
        && ctx.elements == if ctx.hasCanvas then old(ctx.elements) + [NewText(p, ctx.style, freshId)]
                           else old(ctx.elements)
      ensures ctx.committed == old(ctx.committed) && ctx.currentTool == old(ctx.currentTool)
      ensures ctx.hasCanvas == old(ctx.hasCanvas) && ctx.selected == old(ctx.selected)
      ensures ctx.clipboard == old(ctx.clipboard)
    {
      if isEditing {
        return;
      }
      var els := ctx.elements;
      var hit := GetTextElementAtPoint(p, els);
      if hit.Some? {
        StartEditing(ctx, els[hit.value], lineWidth);
      } else {
        CreateNewText(ctx, p, freshId, lineWidth);
      }
    }

    /** Escape during an edit cancels it: the element is deleted. */
    method OnKeyDown(ctx: Context, key: string, lineWidth: (Font, string) -> real)
      requires ctx.Valid() && Valid()
      modifies this, ctx
      ensures ctx.Valid() && Valid()
      ensures key == "Escape" && old(isEditing) ==>
        && !isEditing
        && ctx.elements == old(AfterFinish(ctx.elements, editingElementId, "", lineWidth))
        && ctx.currentTool == (if old(editingElementId) != "" then "select" else old(ctx.currentTool))
        && ctx.committed == (if old(editingElementId) != "" && ctx.hasCanvas
                             then old(ctx.committed) + [ctx.elements] else old(ctx.committed))
      ensures !(key == "Escape" && old(isEditing)) ==>
        && isEditing == old(isEditing) && editingElementId == old(editingElementId)
        && draft == old(draft) && ctx.elements == old(ctx.elements)
        && ctx.committed == old(ctx.committed) && ctx.currentTool == old(ctx.currentTool)
      ensures ctx.hasCanvas == old(ctx.hasCanvas) && ctx.selected == old(ctx.selected)
      ensures ctx.clipboard == old(ctx.clipboard)
    {
      if key == "Escape" && isEditing {
        FinishEditing(ctx, true, lineWidth);
      }
    }
  }
}
