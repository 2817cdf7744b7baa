# Drawing editor core, modelled in Dafny

This project models the engine of an in-browser whiteboard editor in the style of Excalidraw.
Users draw rectangles, ellipses, arrows, freehand strokes and text on a pannable, zoomable
canvas. They undo and redo, keep several canvases, and export or import them. The model
covers:

- the scene: an ordered element list, back to front, with append, merge-update and filter-delete;
- the history engine: undo and redo stacks of canvas snapshots, capped at 50 entries;
- the tool state machines: select, rectangle and ellipse, arrow, freehand draw, eraser and text;
- the editor store: zoom, scroll, selection, current tool and style;
- the viewport and export arithmetic, the renderer's culling filter, and canvas migration;
- the sidebar's alignment and duplicate/delete actions;
- the small classifiers: keyboard combinations, hex colours, save-status text, and the
  canvas list's filter and sort.

There is one Dafny module per source file:

- History, CanvasStore, Types, EditorStore, ToolRegistry;
- BoxTool (rectangle and ellipse), ArrowTool, DrawTool, EraserTool, TextTool, SelectTool;
- Renderer, Export, Migration, CanvasView (the canvas component);
- Alignment, ActionButtons, CanvasList, Shortcuts, ColorPicker, AutoSaveIndicator.

Shared helpers live in Base, Strings, Js (parsed JSON values), Geometry and ToolContext.
ToolContext is the state adapter the canvas hands to each tool.

Stores and tools whose fields change in place are classes. Their methods carry `modifies`
clauses and state the whole new state against a specification function. Pure helpers are
functions with contracts. The properties relating several operations are lemmas: round
trips, invariants, permutation and ordering.

Modelling conventions:

- Coordinates are `real`s. Every square-root threshold test is a comparison of squares.
- Ids, random seeds, clock readings and text widths are parameters.
- Element fields the code reads through `||` or a truthiness test store their falsy value
  (`""`, `0` or an empty point list) to stand for "absent". Only the arrow endpoints are an
  `Option`, because the code tests them with `!== undefined`.
- Where the code has a quirk, the model keeps it. Examples:
  - wheel zoom clamps to 5 while the store clamps to 3;
  - undo needs two entries while the stats claim one is enough;
  - a canvas without a version counts as 1.0.0 in one place and as 0.0.0 in another;
  - the later definitions of `deleteCanvas` and `duplicateCanvas` win.

  Those that look unintended are listed under Findings. Their corrected definitions sit beside
  the as-written ones, with the intended property proved.

## Model

| member | source | states |
|---|---|---|
| History.StatsOf | src/store/historyStore.js:135-140 | the stats as written: both stack sizes, `canRedo` exactly when something was undone, and `canUndo` as soon as the undo stack holds a single entry |
| History.PushShape | src/store/historyStore.js:21-39 | pushing makes the state the new top, keeps the earlier entries in order, drops the oldest one only when 50 are already stored, and empties the redo stack |
| History.UndoShape | src/store/historyStore.js:46-70 | with fewer than two entries undo returns nothing and changes nothing; otherwise it removes the top, returns the entry below it (which stays on the undo stack) and puts the current state on the redo stack |
| History.RedoShape | src/store/historyStore.js:77-97 | with an empty redo stack redo returns nothing and changes nothing; otherwise it returns the most recently undone state, removes it, and puts the current state on the undo stack |
| History.UndoThenRedo | src/store/historyStore.js:46-97 | undo followed by redo gives back the state undo started from and restores the redo stack and the undo stack's length; the undo stack's top is then the restored previous state |
| History.MoveKeepsTotal | src/store/historyStore.js:46-97 | undo and redo move at most one entry between the stacks, so the total number of entries never changes |
| History.BoundedPreserved | src/store/historyStore.js:15-39 | push, undo, redo and initialise all keep the two stacks together at no more than 50 entries, so the undo stack never exceeds the cap even though redo does not check it |
| History.AvailabilityMatches | src/store/historyStore.js:102-111 | `canUndo` and `canRedo` hold exactly when undo and redo would return a state; a freshly initialised history can do neither, and after a push nothing can be redone |
| History.StatsOverclaimUndo | src/store/historyStore.js:135-140 | a history holding one entry reports `canUndo` in its stats, while undo on it returns nothing |
| History.StatsFixed | src/store/historyStore.js:102-111 | the stats as intended: `canUndo` and `canRedo` agree with the store's own availability tests |
| History.RedoBreaksTopInvariant | src/store/historyStore.js:77-97 | with history [a, b] and b shown, undo shows a and redo shows b, but the undo stack becomes [a, a]; after a push of c, two undos both restore a |
| History.AfterRedoFixed | src/store/historyStore.js:77-97 | redo as intended: it succeeds exactly when something was undone, and the state it restores becomes the top of the undo stack |
| History.UndoThenRedoFixed | src/store/historyStore.js:46-97 | with the intended redo, when the top of the undo stack is the state shown, undo keeps that so and undo then redo restores both stacks exactly |
| History.HistoryStore.constructor | src/store/historyStore.js:7-15 | both stacks start empty |
| History.HistoryStore.PushState | src/store/historyStore.js:21-39 | the new stacks are those `AfterPush` gives from the old ones |
| History.HistoryStore.Undo | src/store/historyStore.js:46-70 | the new stacks and the returned state are those `AfterUndo` gives from the old stacks |
| History.HistoryStore.Redo | src/store/historyStore.js:77-97 | the new stacks and the returned state are those `AfterRedo` gives from the old stacks |
| History.HistoryStore.CanUndo | src/store/historyStore.js:102-104 | true exactly when the undo stack holds at least two entries |
| History.HistoryStore.CanRedo | src/store/historyStore.js:109-111 | true exactly when the redo stack is non-empty |
| History.HistoryStore.ClearHistory | src/store/historyStore.js:116-119 | both stacks become empty |
| History.HistoryStore.InitializeHistory | src/store/historyStore.js:124-130 | the undo stack holds just the given state and the redo stack is empty |
| History.HistoryStore.GetHistoryStats | src/store/historyStore.js:135-140 | the stats of the current stacks, as written |
| CanvasStore.Ids | src/store/canvasStore.js:125-130 | the ids of the elements, position by position |
| CanvasStore.UpdateById | src/store/canvasStore.js:125-130 | same length; every element with the id has the patch merged in and every other element is unchanged |
| CanvasStore.FindById | src/components/Sidebar/AlignmentTools.jsx:52 | the first element of the list carrying the id, or none exactly when no element carries it |
| CanvasStore.RemoveIdsMembers | src/store/canvasStore.js:177-181 | an element survives the filter exactly when it was in the list and its id is not one of those removed |
| CanvasStore.UpdateKeepsIds | src/store/canvasStore.js:125-130 | an update keeps the ids, and with them the order; an unknown id leaves the list unchanged |
| CanvasStore.RemoveIdsConcat | src/store/canvasStore.js:152-155 | the filter distributes over concatenation, so the survivors keep their relative order |
| CanvasStore.RemoveIdsTwice | src/store/canvasStore.js:177-181 | removing one set of ids and then another is removing their union |
| CanvasStore.RemoveIdsNone | src/store/canvasStore.js:177-181 | a list holding none of the ids comes back unchanged |
| CanvasStore.AddThenDelete | src/store/canvasStore.js:96-171 | deleting the id of an element just appended removes it again; when the id was new the list is back to what it was |
| CanvasStore.Store.constructor | src/store/canvasStore.js:10-17 | no current canvas, no stored canvases, no unsaved changes |
| CanvasStore.Store.Publish | src/store/canvasStore.js:106-113 | the canvas becomes current, is stored under its id, and the store is marked unsaved |
| CanvasStore.Store.AddElement | src/store/canvasStore.js:96-119 | without a current canvas nothing changes; otherwise the element is appended, the canvas is stamped, made current and stored under its id, and the store is unsaved |
| CanvasStore.Store.UpdateElement | src/store/canvasStore.js:121-146 | without a current canvas nothing changes; otherwise the elements become `UpdateById` of the old ones, published the same way |
| CanvasStore.Store.DeleteElement | src/store/canvasStore.js:148-171 | without a current canvas nothing changes; otherwise every element with the id is removed and the rest keep their order |
| CanvasStore.Store.DeleteElements | src/store/canvasStore.js:173-195 | without a current canvas nothing changes; otherwise every element whose id is listed is removed |
| CanvasStore.Store.RenameCanvas | src/store/canvasStore.js:382-406 | an unknown id changes nothing; otherwise the stored canvas is renamed and stamped, replaces the current canvas only when their ids match, and the store counts as saved |
| CanvasStore.Store.DeleteCanvas | src/store/canvasStore.js:408-426 | the id leaves the map, the current canvas is closed only when it is the one deleted, and the store counts as saved |
| CanvasStore.Store.CommitToHistory | src/store/canvasStore.js:456-464 | the current canvas is pushed on the history when there is one; otherwise the history is unchanged |
| CanvasStore.Store.Undo | src/store/canvasStore.js:466-493 | with no canvas or fewer than two entries nothing changes; otherwise the history is undone, its previous state becomes current and is stored under its id, and the store is unsaved |
| CanvasStore.Store.Redo | src/store/canvasStore.js:495-515 | with no canvas or nothing undone nothing changes; otherwise the history is redone, the restored state becomes current and is stored under its id, and the store is unsaved |
| CanvasStore.StoreAfterStep | src/store/canvasStore.js:96-195 | one more element write after a run of writes leaves the store as a single write of the final elements would, because the later write under the same id wins |
| Types.Blank | src/types/index.js:62-90 | an element with the given id and type and no points or arrow ends |
| Types.Merge | src/store/canvasStore.js:125-130 | the shallow merge: each field present in the update overwrites the element's own, every other field is kept, and id and type never change |
| Types.MergeNoChange | src/store/canvasStore.js:125-130 | merging an empty update changes nothing |
| Types.MergeTwice | src/store/canvasStore.js:125-130 | merging the same update a second time changes nothing |
| Types.DefaultAppState | src/types/index.js:118-128 | select tool, black stroke, transparent fill, stroke width 2, opacity 100, zoom 1, no scroll, nothing selected |
| Types.CreateCanvas | src/types/index.js:92-116 | the given id or else a generated one, the given name, no elements, the default view state, created and updated at the same instant |
| Types.CreateElement | src/types/index.js:62-90 | type and position as given; the given id and seed or else generated ones; points only on draw and arrow elements; text properties only on text elements |
| Types.CreateElementDefaults | src/types/index.js:62-90 | an absent or zero stroke width, opacity or roughness and an empty colour take the defaults, so without options an element has stroke width 2 and opacity 100, and every text element has a font size and family |
| ToolRegistry.GetTool | src/tools/index.js:21-23 | a registered name gives its tool and any other name gives the select tool |
| ToolRegistry.RegistryExact | src/tools/index.js:10-18 | the registry holds exactly the seven tool names, each under its own tool's name, so looking a tool up by its name gives it back |
| ToolRegistry.SelectFallback | src/tools/index.js:21-23 | the lookup gives the select tool exactly for "select" and for unknown names |
| ToolContext.Context.constructor | src/components/Canvas/Canvas.jsx:66-71 | the adapter starts from the current elements (none without a canvas), selection, clipboard, tool and style, with nothing committed and the view clean |
| ToolContext.Context.AddElement | src/components/Canvas/Canvas.jsx:83-86 | the element is appended when there is a canvas, the view is marked dirty, and nothing else changes |
| ToolContext.Context.UpdateElement | src/components/Canvas/Canvas.jsx:75-78 | the elements become `UpdateById` of the old ones, the view is marked dirty, and nothing else changes |
| ToolContext.Context.DeleteElement | src/components/Canvas/Canvas.jsx:79-82 | every element with the id is removed, the view is marked dirty, and nothing else changes |
| ToolContext.Context.SetSelectedIds | src/components/Canvas/Canvas.jsx:72 | the selection becomes the given ids and nothing else changes |
| ToolContext.Context.SetClipboard | src/components/Canvas/Canvas.jsx:91 | the clipboard becomes the given elements and nothing else changes |
| ToolContext.Context.SetCurrentTool | src/components/Canvas/Canvas.jsx:73 | the current tool becomes the given name and nothing else changes |
| ToolContext.Context.CommitChanges | src/components/Canvas/Canvas.jsx:87-89 | the current elements are recorded in the history exactly when there is a canvas; the dirty flag is untouched |
| Geometry.Span | src/tools/RectangleTool.js:46-66 | the box of a drag has non-negative size, its corner at the smaller coordinates and its far edges at the larger ones |
| Geometry.Grow | src/utils/export.js:405-430 | widening an extent takes the smaller minima and the larger maxima |
| Geometry.SpanProperties | src/tools/RectangleTool.js:46-66 | the drag direction does not matter, both drag points lie in the box, and it is the smallest box holding them |
| Geometry.SpanSize | src/tools/RectangleTool.js:46-66 | the width and height are the distances the pointer moved along each axis, so a box has zero size exactly along an axis the pointer did not move |
| Geometry.ToCanvasToClient | src/tools/TextTool.js:105-110 | the client-to-canvas conversion and the placement of a canvas point on the page are inverse to each other for every non-zero zoom |
| Geometry.Shift | src/utils/export.js:218-222 | same length, every point moved by the same offset |
| BoxTool.PreviewAt | src/tools/RectangleTool.js:16-44 | the preview created on press is a zero-size box at the press point, carrying the current style, roughness 1 and the random seed |
| BoxTool.DragTo | src/tools/RectangleTool.js:46-66 | while dragging, the preview's box is the box spanned by the start point and the pointer, and every other property is kept |
| BoxTool.DragProperties | src/tools/RectangleTool.js:46-88 | the preview does not depend on the direction of the drag, never has negative size, and is kept on release exactly when the pointer moved more than 5 along some axis |
| BoxTool.ShapeTool.constructor | src/tools/RectangleTool.js:8-14 | a new rectangle or ellipse tool is idle: not drawing, no start point, no preview |
| BoxTool.ShapeTool.Reset | src/tools/RectangleTool.js:113-118 | the tool returns to idle |
| BoxTool.ShapeTool.OnMouseDown | src/tools/RectangleTool.js:16-44 | the tool starts drawing from the press point with the preview `PreviewAt` gives |
| BoxTool.ShapeTool.OnMouseMove | src/tools/RectangleTool.js:46-66 | while idle nothing changes; while drawing the preview becomes `DragTo` of the start point and the pointer |
| BoxTool.ShapeTool.OnMouseUp | src/tools/RectangleTool.js:68-88 | a preview wider or taller than 5 is added under a fresh id and committed once; a smaller one, or a release while idle, adds and commits nothing; the tool is idle afterwards and the selection, clipboard and tool are untouched |
| BoxTool.ShapeTool.OnKeyDown | src/tools/RectangleTool.js:90-96 | Escape while drawing discards the gesture; any other key, or Escape while idle, changes nothing |
| BoxTool.PreviewShownAfterDrag | src/tools/RectangleTool.js:98-100 | the render guard (`Shows`, used by `ShapeTool.PreviewShown`) draws no preview right after the press, and after a drag draws it exactly when the pointer moved along both axes; so a flat box more than 5 long is kept on release without ever having been drawn |
| ArrowTool.PreviewAt | src/tools/ArrowTool.js:16-46 | the preview created on press has both endpoints at the press point, an arrowhead at the end, the current stroke style, roughness 1 and the random seed |
| ArrowTool.Finished | src/tools/ArrowTool.js:74-89 | the element added on release is the preview under a fresh id with the same endpoints and the box spanned by them, everything else kept |
| ArrowTool.FinishedBox | src/tools/ArrowTool.js:74-89 | the kept arrow's box starts at the smaller coordinates, measures the absolute differences of the endpoints, and holds both endpoints |
| ArrowTool.LengthThreshold | src/tools/ArrowTool.js:69-73 | an arrow whose endpoints differ by more than 5 along an axis is long enough to keep, and one within 3 on both axes never is |
| ArrowTool.ArrowTool.constructor | src/tools/ArrowTool.js:8-14 | a new arrow tool is idle |
| ArrowTool.ArrowTool.Reset | src/tools/ArrowTool.js:181-186 | the tool returns to idle |
| ArrowTool.ArrowTool.OnMouseDown | src/tools/ArrowTool.js:16-46 | the tool starts drawing from the press point with the preview `PreviewAt` gives, whose tail is the press point |
| ArrowTool.ArrowTool.OnMouseMove | src/tools/ArrowTool.js:48-59 | while idle nothing changes; while drawing only the head moves to the pointer and the tail stays at the press point |
| ArrowTool.ArrowTool.OnMouseUp | src/tools/ArrowTool.js:61-97 | an arrow longer than 5 is added as `Finished` of the preview and committed once; a shorter one, or a release while idle, adds nothing; the tool is idle afterwards |
| ArrowTool.ArrowTool.OnKeyDown | src/tools/ArrowTool.js:99-105 | Escape while drawing discards the gesture; anything else changes nothing |
| DrawTool.PointExtent | src/tools/DrawTool.js:157-171 | the extent of a non-empty path contains every point, and each of its four bounds is reached by some point |
| DrawTool.StrokeBoxCovers | src/tools/DrawTool.js:157-179 | every recorded point lies in the padded box, at least half the stroke width (2 when unset) away from each edge |
| DrawTool.SpacedSnoc | src/tools/DrawTool.js:56-66 | appending a point at least 2 away from the last keeps every pair of consecutive points at least 2 apart |
| DrawTool.Extents | src/tools/DrawTool.js:160-171 | the accumulator loop computes exactly the extent `PointExtent` describes |
| DrawTool.DrawTool.constructor | src/tools/DrawTool.js:9-17 | a new draw tool is idle with an empty path |
| DrawTool.DrawTool.Reset | src/tools/DrawTool.js:181-186 | the path, the preview and the last point are cleared and the tool is idle |
| DrawTool.DrawTool.OnMouseDown | src/tools/DrawTool.js:19-49 | the path starts with exactly the press point, which is also the last point, and the preview carries it in the current style |
| DrawTool.DrawTool.UpdateBoundingBox | src/tools/DrawTool.js:157-179 | with an empty path nothing changes; otherwise the preview's box becomes the padded box of the path and nothing else changes |
| DrawTool.DrawTool.OnMouseMove | src/tools/DrawTool.js:51-77 | a point at least 2 from the last recorded one is appended, becomes the last point and the preview's path, and the box is recomputed; any other move changes nothing |
| DrawTool.DrawTool.OnMouseUp | src/tools/DrawTool.js:79-103 | a path of at least two points is added under a fresh id with exactly the recorded points and the padded box, and committed once; otherwise nothing is added; the tool is idle afterwards |
| DrawTool.DrawTool.OnKeyDown | src/tools/DrawTool.js:105-111 | Escape while drawing clears the gesture; anything else changes nothing |
| EraserTool.ClosestParam | src/tools/EraserTool.js:147-172 | the point measured to lies on the segment: its parameter is clamped to [0, 1], and a zero-length segment measures to its start |
| EraserTool.SegmentNearest | src/tools/EraserTool.js:147-177 | the distance measured is the distance to the nearest point of the segment: no point of it, endpoints included, is closer |
| EraserTool.SegmentEnds | src/tools/EraserTool.js:147-177 | both ends of a segment are at distance zero from it, whatever its length |
| EraserTool.NearCovers | src/tools/EraserTool.js:82-142 | `NearElement`, the per-type hit test of `isPointNearElement`, catches every point of a rectangle's or a text's box, the centre of an ellipse, both corners of an arrow's or a line's diagonal and every recorded point of a stroke; any other type is never near |
| EraserTool.NearArrow | src/tools/EraserTool.js:107-114 | for an arrow the hit test is exactly a 20-radius test against the top-left to bottom-right diagonal of its box |
| EraserTool.ArrowFinishedBox | src/tools/ArrowTool.js:74-89 | an arrow drawn from (100, 0) to (0, 100) is kept with the box (0, 0, 100, 100), whose diagonal is not the arrow |
| EraserTool.ArrowDiagonalMisses | src/tools/EraserTool.js:107-114 | such an arrow is missed by the eraser at its own tail (100, 0) and hit at the empty corner (0, 0) |
| EraserTool.TailOffDiagonal | src/tools/EraserTool.js:147-177 | the tail (100, 0) is at squared distance 5000 from the box diagonal, beyond the radius 20 |
| EraserTool.CornerOffArrow | src/tools/EraserTool.js:147-177 | the corner (0, 0) is at squared distance 5000 from the arrow itself |
| EraserTool.NearElementFixedEnds | src/tools/EraserTool.js:107-114 | with arrows tested against their own endpoints, the eraser on either end of any arrow deletes it, the empty corner of the example no longer does, and every other type's test is unchanged |
| EraserTool.NearAnyPoint | src/tools/EraserTool.js:117-128 | true exactly when some recorded point lies within the radius |
| EraserTool.IsPointNearElement | src/tools/EraserTool.js:82-142 | computes the hit test `NearElement` for every element type |
| EraserTool.IntersectsPath | src/tools/EraserTool.js:69-77 | true exactly when some point of the eraser path is near the element |
| EraserTool.TopmostSpec | src/tools/EraserTool.js:182-191 | `Topmost`, the element `getElementAtPoint` chooses, is near the point and no element above it is; none is chosen exactly when no element is near |
| EraserTool.ElementAtPoint | src/tools/EraserTool.js:182-191 | the top-down scan returns the topmost element near the point |
| EraserTool.ErasedMembers | src/tools/EraserTool.js:38-49 | `Erased`, the ids one drag step deletes, holds an id exactly when some element carrying it is touched by the path and the gesture has not erased it yet |
| EraserTool.SweepStep | src/tools/EraserTool.js:40-48 | visiting one element erases it exactly when it is new to the gesture and touched, and the survivors are those whose ids were not erased so far |
| EraserTool.Eraser.constructor | src/tools/EraserTool.js:6-13 | a new eraser is idle: no gesture, nothing deleted, an empty path |
| EraserTool.Eraser.Reset | src/tools/EraserTool.js:212-216 | the gesture ends and its memory is cleared |
| EraserTool.Eraser.OnMouseDown | src/tools/EraserTool.js:15-29 | a press starts a gesture whose path is the press point and deletes the topmost element near it, if any, remembering its id; nothing is committed |
| EraserTool.Eraser.OnMouseMove | src/tools/EraserTool.js:31-50 | while idle nothing changes; while dragging the point joins the path, and every element not yet deleted that the whole path touches is deleted and remembered |
| EraserTool.Eraser.Sweep | src/tools/EraserTool.js:38-49 | the scan over the elements as the step found them deletes exactly the `Erased` ids |
| EraserTool.Eraser.Visit | src/tools/EraserTool.js:40-48 | one element is deleted and remembered exactly when it is new to the gesture and the path touches it |
| EraserTool.Eraser.OnMouseUp | src/tools/EraserTool.js:52-60 | the gesture is committed once exactly when it deleted something, and the eraser returns to idle |
| TextTool.WidestLine | src/tools/TextTool.js:268-274 | the widest line's width: no line is wider, and it is the width of some line (or 0 for no lines) |
| TextTool.Measured | src/tools/TextTool.js:261-283 | the measured box is at least 100 by 24, every line fits with 10 to spare, and the width is the minimum or exactly the widest line's plus 10 |
| TextTool.MeasureText | src/tools/TextTool.js:261-283 | the loop over the lines computes exactly `Measured` |
| TextTool.MeasuredHeight | src/tools/TextTool.js:276-281 | the box holds 1.4 font sizes (20 when unset) per line, with one line more than the text has line breaks |
| TextTool.TextAtSpec | src/tools/TextTool.js:288-304 | the element chosen is a text element whose box holds the point, with no such element above it; none is chosen exactly when no text element's box holds the point |
| TextTool.GetTextElementAtPoint | src/tools/TextTool.js:288-304 | the top-down scan returns the topmost text element under the point |
| TextTool.NewText | src/tools/TextTool.js:59-82 | the new element is an empty text at the press point, 100 by 24, font size 20, with a font family and the current stroke and opacity |
| TextTool.EditPatch | src/tools/TextTool.js:216-237 | finishing a non-empty text sets the text, a size of at least 100 by 24 and a non-zero font size, and never moves the element |
| TextTool.AfterFinishEmpty | src/tools/TextTool.js:212-214 | an empty final text removes every element with the edited id and keeps all others |
| TextTool.AfterFinishEdit | src/tools/TextTool.js:215-238 | any other final text keeps every element in place, and the edited one shows the text, is at least 100 by 24, stays where it was and keeps its font size (20 when it had none) |
| TextTool.CreateThenCancel | src/tools/TextTool.js:59-85 | cancelling the edit of a text element just created restores the element list from before the press, whatever was typed |
| TextTool.BlankDraftDeletes | src/tools/TextTool.js:210-214 | finishing deletes the element exactly when the draft is nothing but white space |
| TextTool.TextTool.constructor | src/tools/TextTool.js:8-16 | a new text tool is not editing |
| TextTool.TextTool.Input | src/tools/TextTool.js:100 | typing replaces the editor's value during an edit, and changes nothing otherwise |
| TextTool.TextTool.FinishEditing | src/tools/TextTool.js:204-256 | without an edit nothing happens; otherwise the elements become `Finishing` of the old ones, the change is committed once, the tool switches to select, and the edit is over |
| TextTool.TextTool.StartEditing | src/tools/TextTool.js:90-100 | an edit in progress is finished first; then the element is edited starting from its text |
| TextTool.TextTool.StartEditingExisting | src/tools/TextTool.js:191-199 | the element with the id is edited when it exists and is a text element, after any edit in progress is finished, which commits once and switches to the select tool; otherwise nothing changes |
| TextTool.TextTool.CreateNewText | src/tools/TextTool.js:59-85 | an empty text element is added at the point and edited, after finishing any edit in progress |
| TextTool.TextTool.OnMouseDown | src/tools/TextTool.js:18-38 | a press during an edit changes nothing; otherwise it edits the topmost text element under the pointer, or adds and edits a new one there; nothing is committed |
| TextTool.TextTool.OnKeyDown | src/tools/TextTool.js:48-54 | Escape during an edit cancels it: the edited element is deleted, the result is recorded in the history when a canvas is open, and the tool switches to select; anything else changes nothing |
| SelectTool.ElementAtSpec | src/tools/SelectTool.js:412-420 | the element chosen contains the point and none above it does; none is chosen exactly when no element contains the point |
| SelectTool.GetElementAtPoint | src/tools/SelectTool.js:412-420 | the top-down scan returns the topmost element containing the point |
| SelectTool.FirstHandleSpec | src/tools/SelectTool.js:20-41 | the handle found is within 8 of the pointer and no handle tried before it is; none is found exactly when the pointer is within 8 of no handle |
| SelectTool.CornerGrabbed | src/tools/SelectTool.js:20-41 | on a box more than 16 wide and high, a pointer on the top-left corner grabs the nw handle and one on the bottom-right corner the se handle |
| SelectTool.CalculateResize | src/tools/SelectTool.js:443-505 | a dragged edge follows the pointer: a left or top handle sets the side to max(10, old side minus the displacement) and keeps the opposite edge, a right or bottom handle sets it to max(10, old side plus the displacement) and keeps x or y; an undragged side stays (at least 10); only a text element's font size changes, to `ScaledFontSize` of the new height |
| SelectTool.ScaledFontSize | src/tools/SelectTool.js:497-502 | the resized font size is a whole number of at least 8: it is 8 exactly when the old size (20 when absent) scaled by the height ratio is below 8.5, and otherwise that scaled size rounded to the nearest integer, halves upwards |
| SelectTool.SidewaysKeepsFont | src/tools/SelectTool.js:443-505 | an east or west resize of a text element leaves a whole-number font size of at least 8 as it was |
| SelectTool.DragPatch | src/tools/SelectTool.js:209-232 | a drag moves the position by the pointer's displacement, and a stroke's points and an arrow's endpoints with it; the size and text are untouched |
| SelectTool.DragThereAndBack | src/tools/SelectTool.js:209-232 | dragging by a displacement and then by its opposite restores the element exactly, and a drag never changes the size |
| SelectTool.DraggedSpec | src/tools/SelectTool.js:205-237 | after a drag step each element whose id is selected and has a snapshot is its snapshot's drag update merged in; every other element is unchanged |
| SelectTool.DraggedPosition | src/tools/SelectTool.js:205-237 | a dragged element stands exactly at its snapshot's position plus the displacement |
| SelectTool.SelectionBounds | src/tools/SelectTool.js:422-431 | the selection box is the box spanned by its start and end points |
| SelectTool.IdsInBox | src/tools/SelectTool.js:240-250 | an id is selected exactly when some element carrying it lies wholly inside the box |
| SelectTool.Toggled | src/tools/SelectTool.js:98-105 | the clicked id is selected afterwards exactly when it was not before, and every other id keeps its state |
| SelectTool.ToggleTwice | src/tools/SelectTool.js:98-105 | toggling the same element twice gives back the same set of selected ids |
| SelectTool.CutPartition | src/tools/SelectTool.js:289-297 | cutting splits the elements: what goes to the clipboard and what stays on the canvas together number exactly the elements there were |
| SelectTool.Pasted | src/tools/SelectTool.js:304-313 | a paste adds one copy per clipboard element, in order, each under the next fresh id and moved by 20 along both axes |
| SelectTool.PastedIds | src/tools/SelectTool.js:304-315 | the pasted copies carry exactly the fresh ids in order, so the paste selects exactly the copies it added |
| SelectTool.Select.constructor | src/tools/SelectTool.js:46-57 | a new select tool has no gesture, no snapshots and no remembered click |
| SelectTool.Select.Snapshot | src/tools/SelectTool.js:121-132 | every selected element that exists is snapshotted, and the pressed element too when it is not selected; nothing else is |
| SelectTool.Select.EditText | src/tools/SelectTool.js:88-94 | a double click on a text element switches to the text tool and edits that element; an edit in progress is finished first, which commits once and leaves the tool on select; with no such text element only the tool switch happens |
| SelectTool.Select.CreateText | src/tools/SelectTool.js:142-148 | a double click on empty space switches to the text tool, adds an empty text element there (when a canvas is open) and edits it; an edit in progress is finished first, which commits once and leaves the tool on select |
| SelectTool.Select.PressElement | src/tools/SelectTool.js:82-136 | a second press on a text element within 300 ms forgets the click and hands the element to the text tool as `EditText` states; otherwise the click is remembered, elements, history and tool are untouched, and a ctrl/shift press toggles the element while a plain press selects it and starts a drag from the press point with snapshots |
| SelectTool.Select.SelectOrDrag | src/tools/SelectTool.js:107-135 | a ctrl or shift press toggles the element in the selection; a plain press selects it unless already selected and starts a drag from the press point with snapshots of the selected elements and of it |
| SelectTool.Select.PressEmpty | src/tools/SelectTool.js:137-165 | a second press on empty space within 300 ms forgets the click and creates and edits a text element there as `CreateText` states; otherwise the click is remembered, a plain press clears the selection, a selection box starts at the pointer, and elements, history and tool are untouched |
| SelectTool.Select.CreateTextForgetting | src/tools/SelectTool.js:144-154 | a double click on empty space forgets the click and creates and edits a text element there, exactly as `CreateText` states |
| SelectTool.Select.StartBox | src/tools/SelectTool.js:157-165 | a single press on empty space is remembered as a click on nothing, clears the selection unless ctrl or shift is held, starts a selection box at the pointer, and leaves elements, history and tool alone |
| SelectTool.Select.OnMouseDown | src/tools/SelectTool.js:59-166 | a press on a handle of the single selected element (`GrabbedHandle`) starts a resize from its snapshot and changes nothing else; else, on the topmost element under the pointer, a double click on text hands the element to the text tool (finishing any edit, adding its commit and the tool switch), a ctrl/shift press toggles it, and a plain press selects it and starts a drag from the press point with snapshots of the selected elements and of it, leaving elements and history alone; else, on empty space, a double click creates and edits text there, and otherwise the selection is cleared (unless ctrl/shift) and a selection box starts at the pointer |
| SelectTool.Select.DragSelected | src/tools/SelectTool.js:205-237 | one drag step turns the elements into `Dragged` of the old ones and changes nothing else |
| SelectTool.Select.ResizeSelected | src/tools/SelectTool.js:191-202 | one resize step turns the elements into `Resized` of the old ones and changes nothing else |
| SelectTool.Select.OnMouseMove | src/tools/SelectTool.js:168-252 | a resize updates the single selected element from its snapshot; otherwise a drag moves every selected element from its snapshot; otherwise a selection box follows the pointer and selects exactly the elements wholly inside it; nothing is committed |
| SelectTool.Select.OnMouseUp | src/tools/SelectTool.js:254-267 | a drag or resize is committed once, and every gesture ends with its snapshots cleared |
| SelectTool.DeleteAll | src/tools/SelectTool.js:275 | deleting the selected ids one by one removes exactly the elements whose id is selected |
| SelectTool.PasteAll | src/tools/SelectTool.js:304-313 | adding the copies one by one appends exactly `Pasted` of the clipboard (when there is a canvas) and returns the fresh ids |
| SelectTool.OnKeyDown | src/tools/SelectTool.js:269-326 | Delete or Backspace removes the selected elements, clears the selection and commits; ctrl+c copies the selected elements; ctrl+x copies, removes and commits; ctrl+v adds moved copies, selects them and commits; ctrl+a selects every element; any other key, or these keys without a selection or clipboard, changes nothing |
| EditorStore.ClampZoom | src/store/editorStore.js:73-76 | the stored zoom always lies in [0.1, 3]: a zoom inside the range is kept, one below is raised to 0.1 and one above is lowered to 3 |
| EditorStore.ClampZoomIdempotent | src/store/editorStore.js:73-76 | clamping twice is clamping once |
| EditorStore.ZoomedIn | src/store/editorStore.js:81-84 | zooming in adds one step of 0.1 unless that passes 3, in which case the zoom becomes 3 |
| EditorStore.ZoomedOut | src/store/editorStore.js:89-92 | zooming out removes one step of 0.1 unless that goes below 0.1, in which case the zoom becomes 0.1 |
| EditorStore.ZoomStepRoundTrip | src/store/editorStore.js:81-92 | stepping keeps a zoom in range inside it; below the cap, one step in and one step out give back the zoom, and at the cap they land one step below it |
| EditorStore.AsList | src/store/editorStore.js:115-117 | a single id becomes a one-element list and a list is kept as it is |
| EditorStore.Editor.constructor | src/store/editorStore.js:7-34 | select tool, default style (black stroke, transparent fill, width 2, opacity 100, Arial), zoom 1, no scroll, nothing selected, an empty clipboard, no drawing, panning or preview |
| EditorStore.Editor.SetCurrentTool | src/store/editorStore.js:39-43 | the tool changes, and the preview and the drawing flag are dropped with it |
| EditorStore.Editor.SetStrokeColor | src/store/editorStore.js:48 | the stroke colour becomes the given one |
| EditorStore.Editor.SetFillColor | src/store/editorStore.js:53 | the fill colour becomes the given one |
| EditorStore.Editor.SetStrokeWidth | src/store/editorStore.js:58 | the stroke width becomes the given one |
| EditorStore.Editor.SetOpacity | src/store/editorStore.js:63 | the opacity becomes the given one |
| EditorStore.Editor.SetFontFamily | src/store/editorStore.js:68 | the font family becomes the given one |
| EditorStore.Editor.SetZoom | src/store/editorStore.js:73-76 | the zoom becomes the clamped value, so it stays in [0.1, 3] |
| EditorStore.Editor.ZoomIn | src/store/editorStore.js:81-84 | the zoom becomes `ZoomedIn` of the old zoom and stays in range |
| EditorStore.Editor.ZoomOut | src/store/editorStore.js:89-92 | the zoom becomes `ZoomedOut` of the old zoom and stays in range |
| EditorStore.Editor.ResetZoom | src/store/editorStore.js:97 | the zoom returns to 1 |
| EditorStore.Editor.SetScroll | src/store/editorStore.js:102 | both scroll offsets are overwritten |
| EditorStore.Editor.Pan | src/store/editorStore.js:107-110 | the deltas are added to the scroll offsets |
| EditorStore.Editor.SetSelectedElements | src/store/editorStore.js:115-117 | the selection becomes the given ids, a single id as a one-element list |
| EditorStore.Editor.AddToSelection | src/store/editorStore.js:122-124 | the id is appended, even when already selected |
| EditorStore.Editor.RemoveFromSelection | src/store/editorStore.js:129-131 | every occurrence of the id leaves the selection, the other ids keep their order |
| EditorStore.Editor.ClearSelection | src/store/editorStore.js:136 | nothing is selected |
| EditorStore.Editor.SetClipboard | src/store/editorStore.js:141 | the clipboard becomes the given elements |
| EditorStore.Editor.SetIsDrawing | src/store/editorStore.js:151 | the drawing flag becomes the given value |
| EditorStore.Editor.SetIsPanning | src/store/editorStore.js:156 | the panning flag becomes the given value |
| EditorStore.Editor.SetPreviewElement | src/store/editorStore.js:161-166 | the preview becomes the given element, or none (`clearPreviewElement`) |
| EditorStore.Editor.CurrentStyle | src/store/editorStore.js:180-186 | the style new elements get is exactly the store's stroke, fill, width, opacity and font family |
| EditorStore.Editor.ApplyStyleToSelection | src/store/editorStore.js:171-175 | the selection and the updates are handed back unchanged, and the store is not modified |
| EditorStore.Editor.Reset | src/store/editorStore.js:191-205 | every field returns to its initial value except the clipboard, which is kept |
| Renderer.ViewportBounds | src/utils/renderer.js:318-323 | at a positive zoom and a non-negative screen size the visible canvas rectangle is well formed |
| Renderer.ViewportCorners | src/utils/renderer.js:318-323 | the viewport's corners are the canvas points under the screen's top-left and bottom-right corners |
| Renderer.VisibleIffOverlaps | src/utils/renderer.js:294-303 | the culling test keeps exactly the elements whose box shares a point with the viewport (edges included) |
| Renderer.DrawList | src/utils/renderer.js:287-306 | the draw list is never longer than the element list |
| Renderer.DrawListMembers | src/utils/renderer.js:287-306 | an element is drawn exactly when it is in the list, is not the one being edited, and is visible when culling is on |
| Renderer.DrawListEditing | src/utils/renderer.js:289-291 | without culling every element but the edited one is drawn, in list order |
| Renderer.DrawListSnoc | src/utils/renderer.js:287-306 | one more element at the end of the list adds it at the end of the draw list when it is shown, and nothing otherwise |
| Renderer.RenderElements | src/utils/renderer.js:282-307 | the loop hands on exactly the draw list, in order |
| Renderer.ShapeOf | src/utils/renderer.js:244-272 | nothing is drawn for an unknown type, a stroke of fewer than two points or an empty text; every known type gets its own shape |
| Renderer.RoughOptionsOf | src/utils/renderer.js:27-37 | stroke, width, roughness and seed are never empty or zero, the element's own values win when set, and the fill is undefined exactly when it is absent or 'transparent' |
| Renderer.RoughDefaults | src/utils/renderer.js:27-37 | an element with no style is drawn black, 2 wide, roughness 1, seed 1, and with its absent fill passed on as undefined, so nothing is filled |
| Renderer.FontOf | src/utils/renderer.js:216-217 | the font size is the element's (16 when absent) times the zoom; weight and family are never empty |
| Renderer.Stack | src/utils/renderer.js:226-232 | the i-th line is written at the top plus i line heights |
| Renderer.TextLines | src/utils/renderer.js:210-235 | nothing for an empty text; otherwise one entry per line break plus one, none holding a line break, each 1.2 font sizes below the previous |
| Renderer.TextLinesJoin | src/utils/renderer.js:223-232 | joining the written lines with line breaks gives the text back |
| Renderer.ArrowEndpoints | src/utils/renderer.js:86-101 | an arrow runs between its stored endpoints when it has them, else along its box diagonal from the top-left |
| Renderer.ArrowEndpointsInBox | src/utils/renderer.js:86-101 | both endpoints lie in the element's box when the box is the one the endpoints span |
| Renderer.Heads | src/utils/renderer.js:107-115 | 'start' and 'both' put a head at the first endpoint, 'end', 'both' and an absent type one at the second |
| Renderer.HeadSegments | src/utils/renderer.js:106-115 | at most two heads, each pointing at an endpoint; for distinct endpoints a head is drawn at an end exactly when the arrow type asks for it |
| Renderer.HeadLength | src/utils/renderer.js:133 | a head is five stroke widths long (2 when absent) and never shorter than 10 |
| Renderer.HeadLengthGrows | src/utils/renderer.js:133 | heads grow with the stroke width, and strokes up to 2 wide get the minimum |
| Renderer.Interior | src/utils/renderer.js:182-186 | each interior point controls a curve ending halfway to the next point |
| Renderer.FreehandPath | src/utils/renderer.js:167-202 | nothing under two points; otherwise one command per point: a move to the first, a curve per interior point, a last curve to the final point |
| Renderer.FreehandPathEnds | src/utils/renderer.js:182-198 | the path passes through the midpoints and ends exactly at the last point |
| Renderer.FreehandSegments | src/utils/renderer.js:167-202 | the loop issues exactly the commands of `FreehandPath` |
| Migration.NumberOf | src/utils/migration.js:72-77 | a version component reads as a non-negative number, and an empty or unreadable one as 0 |
| Migration.CompareFrom | src/utils/migration.js:75-83 | the comparison from a component on is always -1, 0 or 1 |
| Migration.VersionCompare | src/utils/migration.js:71-84 | comparing two versions gives -1, 0 or 1 |
| Migration.CompareFromEqual | src/utils/migration.js:75-83 | the comparison is 0 exactly when every component agrees, missing ones counting as 0 |
| Migration.CompareFromLess | src/utils/migration.js:75-83 | the comparison is -1 exactly when the first version is smaller at the first component where the two differ |
| Migration.CompareFromAntisymmetric | src/utils/migration.js:75-83 | swapping the versions negates the result, and a version equals itself |
| Migration.VersionCompareAntisymmetric | src/utils/migration.js:71-84 | the same two facts for whole version strings |
| Migration.ShortVersionEqual | src/utils/migration.js:71-84 | "1.0" and "1.0.0" compare equal, and "0.0.0" is older than the current version |
| Migration.CompareVersions | src/utils/migration.js:71-84 | the loop with its early returns computes exactly `VersionCompare` |
| Migration.VersionOr | src/utils/migration.js:18 | a truthy version is read as it is, and a missing or falsy one gives the fallback |
| Migration.MigrateToV1Schema | src/utils/migration.js:42-63 | `MigrateToV1` gives exactly the seven schema properties; a truthy stored value is kept (elements only when a list) and a falsy one gets its default |
| Migration.MigrateToV1State | src/utils/migration.js:47-58 | the upgraded application state holds the stored state's properties, with the defaults filling in the rest |
| Migration.MigrateCanvas | src/utils/migration.js:14-36 | a falsy canvas gives null; any other canvas comes out as an object stamped with the current version |
| Migration.MigrateCanvasKeeps | src/utils/migration.js:18-35 | a canvas that is up to date, or has no version, keeps every property and only gains the version stamp |
| Migration.MigrateCanvasUpgrades | src/utils/migration.js:23-25 | an outdated canvas becomes exactly its 1.0.0 upgrade |
| Migration.ValidateCanvas | src/utils/migration.js:122-130 | a canvas is valid exactly when it is an object with a non-empty string id and name, a list of elements and an object application state |
| Migration.MigrateToV1Validates | src/utils/migration.js:42-63 | the upgrade gives a valid canvas exactly when the stored id and name, where truthy, are strings |
| Migration.MigratedAll | src/utils/migration.js:95-103 | the pass keeps the store's keys and turns each stored canvas into its migrated form |
| Migration.MigratedAllVersions | src/utils/migration.js:95-103 | up-to-date canvases are left as they are; every other truthy canvas is stamped with the current version |
| Migration.MigrateEntry | src/utils/migration.js:96-102 | one step reports a change exactly when the canvas needs migration, and stores its migrated form |
| Migration.PassStore | src/utils/migration.js:95-103 | after the loop over some keys, every listed canvas is migrated and every other one is untouched |
| Migration.PassWrites | src/utils/migration.js:93-105 | the loop over some keys sets the write-back flag exactly when a listed canvas needed migration |
| Migration.PassAllStore | src/utils/migration.js:95-103 | over all the keys, the loop stores `MigratedAll` |
| Migration.PassAllWrites | src/utils/migration.js:105-108 | over all the keys, the store is written back exactly when some canvas needs migration |
| Migration.MigrateAllCanvases | src/utils/migration.js:90-115 | the loop computes exactly the store and the write-back flag of the pass |
| Migration.VersionlessSelected | src/utils/migration.js:97-99 | the pass selects a canvas without a version, which it counts as 0.0.0 |
| Migration.VersionlessNotOutdated | src/utils/migration.js:18-23 | `migrateCanvas` counts the same canvas as 1.0.0, so it is not outdated there |
| Migration.VersionlessStaysInvalid | src/utils/migration.js:14-36 | as written, the selected canvas is stamped 1.0.0 and still fails validation, because it has no elements |
| Migration.MigrateCanvasFixed | src/utils/migration.js:14-36 | with a missing version read as 0.0.0: null for a falsy canvas, otherwise an object stamped with the current version |
| Migration.FixedUpgrades | src/utils/migration.js:97-100 | with the fix, every canvas the pass selects becomes exactly its 1.0.0 upgrade |
| Migration.FixedMigrationValidates | src/utils/migration.js:97-100 | with the fix, every selected canvas whose id and name are strings where present comes out valid |
| Export.ExtentCovers | src/utils/export.js:415-420 | every element's box lies inside the folded minima and maxima |
| Export.ExtentMinAttained | src/utils/export.js:415-417 | the left and top sides are each reached by some element |
| Export.ExtentMaxAttained | src/utils/export.js:418-419 | the right and bottom sides are each reached by some element |
| Export.BoundsProperties | src/utils/export.js:405-430 | `CanvasBounds` of an empty scene is 100 by 100 at the origin; for any other scene it is the tightest box holding every element, with width and height its sides |
| Export.GetCanvasBounds | src/utils/export.js:405-430 | the loop with the running minima and maxima computes exactly `CanvasBounds` |
| Export.PlacedInFrame | src/utils/export.js:167-185 | every element lands inside the exported picture, at least the 20-unit padding away from each edge |
| Export.NodeOfShows | src/utils/export.js:189-290 | `NodeOf` makes a node exactly for rectangles, ellipses, texts, arrows with points and strokes of two or more points; a rectangle sits at its placed corner, an ellipse at its placed centre and a text one font size lower |
| Export.OpacityAttrRange | src/utils/export.js:292-295 | the opacity attribute is present exactly when the opacity is not 100, and is then a fraction below 1 for a percentage |
| Export.EmitMeaning | src/utils/export.js:183-298 | one node per exported element, each the node of an exported element with that element's opacity attribute |
| Export.CmdTranslates | src/utils/export.js:232-279 | each exported path command is the on-screen command moved by the scene offset |
| Export.PathTranslates | src/utils/export.js:232-279 | the exported stroke path is the on-screen freehand path moved by the scene offset, command for command |
| Export.PartialStep | src/utils/export.js:244-256 | each turn of the path loop adds the curve through point i ending halfway to the next point |
| Export.PartialEnd | src/utils/export.js:259-269 | the last curve to the final point completes the exported path |
| Export.ExportPath | src/utils/export.js:234-278 | the path loop writes exactly the moved freehand path |
| Export.EmitNode | src/utils/export.js:189-290 | the node built for one element, with its path loop, is exactly `NodeOf` |
| Export.SvgElements | src/utils/export.js:165-298 | the export computes the scene bounds and writes exactly the nodes of the exported elements, in list order |
| Export.ToolArrowsNotExported | src/utils/export.js:216-230 | as written, every arrow the arrow tool finishes has no points, so the SVG export drops it |
| Export.NodeOfFixedExportsArrows | src/utils/export.js:216-230 | with the fix every arrow gets a curve node, and every other element and every arrow with points keeps the node it had |
| Export.FixedArrowsExported | src/utils/export.js:216-230 | with the fix an arrow-tool arrow is exported as the segment between its moved endpoints, which lies inside the picture |
| Export.ImportCanvasSpec | src/utils/export.js:351-375 | `ImportCanvas` refuses the import unless the JSON is an object with a truthy name and an array of elements; an accepted canvas keeps every other property and its elements, gets the fresh id and the same time as both timestamps, and a string name gains " (Imported)" |
| CanvasView.WheelZoom | src/components/Canvas/Canvas.jsx:155-156 | the wheel asks for a zoom in [0.1, 5]: one step of 0.1 out when scrolling down, in otherwise, taken exactly whenever that stays in range |
| CanvasView.CursorScrollKeepsPoint | src/components/Canvas/Canvas.jsx:159-169 | the scroll computed for a new zoom keeps the canvas point under the mouse in place, if that zoom is the one applied |
| CanvasView.WheelKeepsPointBelowCap | src/components/Canvas/Canvas.jsx:155-169 | below the store's cap of 3 the store keeps the asked zoom, so the point under the mouse stays put |
| CanvasView.WheelAtCapDrifts | src/components/Canvas/Canvas.jsx:155-169 | as written, at zoom 3 a wheel step in computes the scroll for 3.1 while the store keeps 3, so the point under the mouse moves |
| CanvasView.WheelZoomFixed | src/components/Canvas/Canvas.jsx:155-156 | with the fix the wheel's zoom always lies in the store's range [0.1, 3] |
| CanvasView.WheelFixedKeepsPoint | src/components/Canvas/Canvas.jsx:155-169 | with the fix every wheel zoom keeps the point under the mouse; the fixed zoom is what the store would have kept, and equals the written one wherever that is at most 3 |
| CanvasView.PanTelescopes | src/components/Canvas/Canvas.jsx:230-236 | however a drag is cut into pan steps, the scroll moves by exactly the distance from where panning started to the last pointer position |
| CanvasView.Sync | src/components/Canvas/Canvas.jsx:266-285 | the state-change effect raises the flag exactly when zoom, scroll or element count differ from the record (or it was raised), and the record becomes the current state |
| CanvasView.Render | src/components/Canvas/Canvas.jsx:299-337 | a frame draws exactly when the flag is raised and always leaves it lowered |
| CanvasView.RedrawOnlyOnChange | src/components/Canvas/Canvas.jsx:266-337 | after a frame has drawn, the next frame draws exactly when the compared state changed |
| CanvasView.View.constructor | src/components/Canvas/Canvas.jsx:12-17 | Space not held, not panning, pointer at the origin, the flag raised, the initial record, no throttle running |
| CanvasView.View.OnKeyDown | src/components/Canvas/Canvas.jsx:97-116 | Space outside a text field arms panning; the key goes to the tool, and raises the flag, exactly when the user is not typing |
| CanvasView.View.OnKeyUp | src/components/Canvas/Canvas.jsx:124-131 | releasing Space outside a text field disarms and ends panning; other keys change nothing |
| CanvasView.View.OnWheel | src/components/Canvas/Canvas.jsx:148-174 | ctrl or meta stores the clamped wheel zoom and the scroll that keeps the cursor point for the asked zoom; a plain wheel scrolls by minus the deltas and keeps the zoom |
| CanvasView.View.OnMouseDown | src/components/Canvas/Canvas.jsx:201-217 | with Space held or the middle button panning starts at the pointer and nothing is forwarded; any other press goes to the tool and raises the flag |
| CanvasView.View.OnMouseMove | src/components/Canvas/Canvas.jsx:220-249 | while panning the move is never forwarded and takes one pan step unless throttled; otherwise it goes to the tool and raises the flag |
| CanvasView.View.ThrottleElapsed | src/components/Canvas/Canvas.jsx:226-228 | the throttle runs out |
| CanvasView.View.OnMouseUp | src/components/Canvas/Canvas.jsx:252-263 | a pan ends without forwarding; otherwise the release goes to the tool and raises the flag |
| CanvasView.View.OnMouseLeave | src/components/Canvas/Canvas.jsx:363 | leaving the canvas is handled exactly as a mouse-up |
| CanvasView.View.SyncRenderState | src/components/Canvas/Canvas.jsx:266-285 | the effect updates the flag and the record exactly as `Sync` says |
| CanvasView.View.StartRenderLoop | src/components/Canvas/Canvas.jsx:345 | the loop starts with the flag raised, so its first frame draws |
| CanvasView.View.RenderFrame | src/components/Canvas/Canvas.jsx:295-346 | one frame draws exactly as `Render` says and lowers the flag |
| Alignment.AlignAll | src/components/Sidebar/AlignmentTools.jsx:39-98 | the updates keep the number of elements |
| Alignment.AlignAllPointwise | src/components/Sidebar/AlignmentTools.jsx:39-98 | element by element, the updates move exactly the elements whose id is selected, each by its own patch, however often the id is listed |
| Alignment.FindSelected | src/components/Sidebar/AlignmentTools.jsx:52 | with distinct ids, looking a selected element up among the selected ones finds that very element |
| Alignment.AlignMeaning | src/components/Sidebar/AlignmentTools.jsx:39-98 | with distinct ids every selected element gets its left edge, centre or right edge (top, middle or bottom) on the group box's matching line, and only that coordinate changes |
| Alignment.AlignKeepsOthers | src/components/Sidebar/AlignmentTools.jsx:39-98 | elements whose id is not selected stay as they were |
| Alignment.GroupBoxTight | src/components/Sidebar/AlignmentTools.jsx:22-36 | the group box holds every selected element and touches the leftmost and rightmost ones |
| Alignment.UpdateEach | src/components/Sidebar/AlignmentTools.jsx:39-98 | the loop of one `updateElement` per selected id leaves the store holding the aligned elements |
| Alignment.AlignSelection | src/components/Sidebar/AlignmentTools.jsx:19-98 | fewer than two selected elements change nothing; otherwise the current canvas holds exactly the aligned elements and is marked unsaved |
| CanvasStore.IdSet | src/store/canvasStore.js:177 | an id is in the set exactly when it is in the list |
| CanvasStore.IdSetSnoc | src/components/Sidebar/ActionButtons.jsx:36-43 | one more id in the list is one more id in the set, and the empty list gives the empty set |
| CanvasStore.SelectedOf | src/components/Sidebar/Sidebar.jsx:42-44 | the selection keeps exactly the elements whose id is selected |
| ActionButtons.Copies | src/components/Sidebar/ActionButtons.jsx:19-29 | one duplicate per selected element |
| ActionButtons.CopiesMeaning | src/components/Sidebar/ActionButtons.jsx:19-29 | the duplicates carry exactly the new ids in order, each sits 20 right and 20 below its original, and moving it back under the old id gives the original |
| ActionButtons.DuplicateKeepsIdsDistinct | src/components/Sidebar/ActionButtons.jsx:19-29 | with new ids that are distinct and unused, every id on the canvas stays distinct after duplicating |
| ActionButtons.AddCopies | src/components/Sidebar/ActionButtons.jsx:19-29 | the loop collects exactly the new ids and leaves the canvas with the duplicates added after everything else |
| ActionButtons.DuplicateSelection | src/components/Sidebar/ActionButtons.jsx:13-33 | nothing happens without a selection; otherwise the duplicates are added after everything else, the selection becomes exactly the new ids, and history is left alone |
| ActionButtons.DeleteEach | src/components/Sidebar/ActionButtons.jsx:37-39 | one `deleteElement` per selected id leaves the canvas without every selected element |
| ActionButtons.DeleteSelection | src/components/Sidebar/ActionButtons.jsx:13-43 | nothing happens without a selection; otherwise every selected element is removed, the selection is emptied, and history is left alone |
| ActionButtons.DeleteMeaning | src/components/Sidebar/ActionButtons.jsx:36-43 | after a delete exactly the elements whose id was not selected remain |
| CanvasList.SearchFilterMembers | src/components/CanvasManager/CanvasList.jsx:266-268 | `SearchFilter` keeps exactly the canvases whose lower-cased name contains the lower-cased term |
| CanvasList.EmptyTermKeepsAll | src/components/CanvasManager/CanvasList.jsx:266-268 | an empty search term keeps the whole list, in its order |
| CanvasList.InsertPermutes | src/components/CanvasManager/CanvasList.jsx:271-273 | inserting adds exactly the one canvas |
| CanvasList.PrependOrdered | src/components/CanvasManager/CanvasList.jsx:271-273 | a canvas not older than the head of a newest-first list can go in front of it |
| CanvasList.InsertOrdered | src/components/CanvasManager/CanvasList.jsx:271-273 | inserting into a newest-first list keeps it newest first |
| CanvasList.NewestFirstOrdered | src/components/CanvasManager/CanvasList.jsx:271-273 | `NewestFirst`, the sorted copy, never has an older canvas before a newer one |
| CanvasList.NewestFirstPermutes | src/components/CanvasManager/CanvasList.jsx:271-273 | `NewestFirst`, the sorted copy, holds the same canvases, each as often |
| CanvasList.ShownMeaning | src/components/CanvasManager/CanvasList.jsx:266-273 | the list shown is newest first and shows exactly the canvases whose name matches the search |
| CanvasList.RenameToMeaning | src/components/CanvasManager/CanvasList.jsx:57-64 | `RenameTo` requests a rename exactly when the trimmed text is non-empty and differs from the current name; the requested name has no white space at either end, occurs in the typed text, and typing it again requests nothing |
| CanvasList.RestoredNameRenamesNothing | src/components/CanvasManager/CanvasList.jsx:107-110 | after Escape restores a name with no white space at either end, confirming it requests no rename |
| CanvasList.MenuPosition | src/components/CanvasManager/CanvasList.jsx:33-55 | the menu opens below the button with right edges aligned, or above the button when it would pass the bottom of the window, and never closer than 8 to the left edge |
| CanvasList.Item.constructor | src/components/CanvasManager/CanvasList.jsx:26-30 | not editing, the box holding the canvas name, the menu closed at the origin |
| CanvasList.Item.ToggleMenu | src/components/CanvasManager/CanvasList.jsx:161 | the menu button toggles the menu, and opening it places it as `MenuPosition` says |
| CanvasList.Item.CloseMenu | src/components/CanvasManager/CanvasList.jsx:191 | the backdrop and the menu entries close the menu |
| CanvasList.Item.StartRename | src/components/CanvasManager/CanvasList.jsx:215-218 | the rename entry enters edit mode and closes the menu |
| CanvasList.Item.Type | src/components/CanvasManager/CanvasList.jsx:104 | typing replaces the text in the box |
| CanvasList.Item.HandleRename | src/components/CanvasManager/CanvasList.jsx:57-64 | the name passed on is exactly `RenameTo` of the box and the current name; edit mode ends and the menu closes either way |
| CanvasList.Item.Cancel | src/components/CanvasManager/CanvasList.jsx:122-125 | cancelling ends edit mode and restores the current name |
| CanvasList.Item.KeyDown | src/components/CanvasManager/CanvasList.jsx:105-111 | Enter renames as `HandleRename` does, Escape cancels, and any other key changes nothing |
| ColorPicker.DigitValue | src/components/Sidebar/ColorPicker.jsx:24 | a hex digit, in either case, is worth less than 16 |
| ColorPicker.DigitRoundTrip | src/components/Sidebar/ColorPicker.jsx:24 | the digit written for a value below 16 is a hex digit that reads back as that value |
| ColorPicker.HexRoundTrip | src/components/Sidebar/ColorPicker.jsx:24 | every 24-bit colour has a spelling the gate accepts, and that spelling reads back as the colour |
| ColorPicker.ValidHexMeaning | src/components/Sidebar/ColorPicker.jsx:24 | every accepted string denotes a 24-bit colour, and the gate and the value ignore letter case |
| ColorPicker.CustomColorChange | src/components/Sidebar/ColorPicker.jsx:19-27 | the typed text is always kept, and it is passed to `onChange` exactly when it is a hash and six hex digits |
| ColorPicker.ColorClick | src/components/Sidebar/ColorPicker.jsx:14-17 | a swatch click passes its colour on and shows it in the custom input, with no check |
| ColorPicker.ForwardedIsColor | src/components/Sidebar/ColorPicker.jsx:19-27 | every colour the input passes on is a 24-bit colour whose lower-case spelling `HexOf` gives |
| ColorPicker.IsColorSelectedMeaning | src/components/Sidebar/ColorPicker.jsx:29-31 | marking is an equivalence, and two colours mark each other exactly when they differ only in letter case |
| ColorPicker.Take | src/components/Sidebar/ColorPicker.jsx:34 | `slice(0, n)` keeps the first n entries, or all of them when there are fewer |
| ColorPicker.Drop | src/components/Sidebar/ColorPicker.jsx:112 | `slice(n)` keeps what follows the first n entries |
| ColorPicker.SwatchesAppend | src/components/Sidebar/ColorPicker.jsx:80-81 | the swatches of rows laid end to end are each part's swatches, in order |
| ColorPicker.ExpandedShowsAll | src/components/Sidebar/ColorPicker.jsx:34-115 | expanded compact mode shows the same swatches as full mode in the same order, and the expander shows nothing outside compact mode |
| ColorPicker.SwatchesMembers | src/components/Sidebar/ColorPicker.jsx:80-81 | a colour is shown exactly when it sits in one of the first six columns of some row |
| AutoSaveIndicator.FormatMeaning | src/components/AutoSaveIndicator/AutoSaveIndicator.jsx:13-25 | `FormatLastSaved` gives no text without a last save; otherwise "Just now" under 5 seconds, then the elapsed whole seconds (5-59), minutes (1-59) or hours (1-23) rounded down, then the date from a day on |
| AutoSaveIndicator.StatusPrecedence | src/components/AutoSaveIndicator/AutoSaveIndicator.jsx:28-51 | in `GetStatusInfo` saving wins over unsaved changes, which win over saved; the spinner shows exactly while saving; a saved state names the time of a save under a day old, and otherwise names the date or says all changes are saved |
| Strings.DecimalRoundTrip | src/components/AutoSaveIndicator/AutoSaveIndicator.jsx:20-22 | the decimal spelling of a count reads back as that count |
| Shortcuts.Combination | src/hooks/useKeyboardShortcuts.js:22-33 | the string built one modifier at a time is "ctrl+", "shift+" and "alt+" for each modifier held, in that order, then the lower-cased key |
| Shortcuts.CombinationDecodes | src/hooks/useKeyboardShortcuts.js:22-33 | for one-character keys, equal combination strings mean the same modifiers and the same key up to case |
| Shortcuts.Unmodified | src/hooks/useKeyboardShortcuts.js:36-38 | with no modifier held the combination is just the lower-cased key |
| Shortcuts.DispatchMeaning | src/hooks/useKeyboardShortcuts.js:12-38 | `Dispatch` fires nothing while typing; otherwise its `Lookup` fires the handler under the exact combination, and without one nothing (the key-only fallback finds only what the combination already found) |
| Shortcuts.OnKeyDown | src/hooks/useKeyboardShortcuts.js:8-49 | when enabled the handler found fires, and the default action is prevented and the other listeners stopped exactly when one fires; a disabled listener does nothing |
| Shortcuts.Produces | src/hooks/useKeyboardShortcuts.js:22-33 | a one-character press gives the combination of a modifier set and a letter exactly when those modifiers are held and that letter pressed, in either case |
| Shortcuts.TableKeys | src/hooks/useKeyboardShortcuts.js:73-88 | the undo, redo and select-all table keys are the combinations of their modifier and letter |
| Shortcuts.ToolKeys | src/hooks/useKeyboardShortcuts.js:55-64 | an unmodified press of a tool letter, in either case, picks its tool, and with any modifier held no tool shortcut fires |
| Shortcuts.UndoRedoKeys | src/hooks/useKeyboardShortcuts.js:72-77 | Ctrl or Command with Z undoes; adding Shift, or Ctrl with Y, redoes; nothing else fires these |
| Shortcuts.SelectAllKey | src/hooks/useKeyboardShortcuts.js:85-88 | Ctrl or Command with A and no other modifier selects everything, and nothing else does |
| Shortcuts.TablesDisjoint | src/hooks/useKeyboardShortcuts.js:55-88 | no key press is answered by two of the three tables |
| Shortcuts.AppDispatchMeaning | src/App.jsx:21-39 | with the three listeners installed in order, a press is answered as the one table that has it answers it, and by nothing when none has it |

## Left out

- ArrowTool.PreviewAt: the preview's `lineStyle: 'solid'` property is not modelled, because nothing in the modelled core reads it.
- Drawing calls: Rough.js, canvas 2D drawing, pixels and each tool's `render` are foreign-library work. The renderer and the SVG export model which elements, segments and path commands are drawn, not how they look.
- PNG export (`src/utils/export.js:12-158`) is canvas drawing and encoding; only the bounds, size and placement arithmetic it shares with the SVG path is modelled.
- Persistence: `src/utils/storage.js` and every `storage.*` call are I/O. The canvas map and the migration pass work on values and write nothing out.
- `getMigrationInfo` only reads local storage and is not part of this model.
- Timers and scheduling: the render loop's `requestAnimationFrame`, the autosave debounce and toast timers are left out. The pan throttle is the method `CanvasView.View.ThrottleElapsed`, which a caller invokes when the timer would fire.
- Clocks, ids and randomness: `Date.now`, ISO timestamps, `nanoid` and `Math.random` are parameters. Timestamps are integer milliseconds. Fresh ids come as a sequence `freshIds` that callers supply.
- `toLocaleDateString` is a parameter `dateText`; locale formatting is not modelled.
- Deep copies through `JSON.parse(JSON.stringify(...))` are plain value copies.
- Floating point: coordinates are exact reals. Rounding, NaN and infinities are not modelled. An absent `opacity` or `fontSize` counts as 0 where the code would compute NaN. An infinite bound (an empty export) is `None`.
- Cursor styles, DOM focus and `preventDefault` are not modelled. Events the canvas forwards to a tool are returned as a boolean rather than dispatched.
- The pan closure in `Canvas.jsx` is modelled through its effect on scroll, not as a closure over stale state.
- Unicode: strings are sequences of characters. Case folding (`toLowerCase`) maps only ASCII letters. `Number` parsing of version parts accepts only decimal digits.
- JSON values: a version that is not a string, and stored canvases that are `null`, are not modelled. Object spreads of string or array keys are not modelled.
- The import's file-name oracle is the parameter `toText`.
- TextTool: the textarea overlay, its listeners, `requestAnimationFrame`, `setTimeout` and `autoResize` are DOM work. `reset()` is left out because nothing calls it and it would pass `null` to `finishEditing`. The empty `onMouseMove` and `onMouseUp` have nothing to model. The textarea's listeners call `finishEditing` with the adapter captured when the edit began, whose element list is the one of that render; so the code does not find a text element created by that same press, and measures it in the default 'Arial, sans-serif' at normal weight instead of its own font. The model looks the element up in the current elements.
- EraserTool: the empty `onKeyDown` has nothing to model. An ellipse with a zero semi-axis divides by zero in the code; the model treats it as never near.
- SelectTool: the hover cursor and the selection-box `render` are drawing. A resize from a box of zero height leaves the aspect ratio undefined in the code; that case is not modelled.
- The clipboard is read as a field (`getClipboard`).
- `EditorStore.Editor.ApplyStyleToSelection`: the store hands back the selection and the updates and changes nothing itself, as in the code; applying them is the caller's business.
- Canvas-map operations outside the core are not part of this model: `createNewCanvas`, `updateCurrentCanvas`, `updateCanvasName`, `loadCanvases`, and the earlier, overridden `deleteCanvas` and `duplicateCanvas`.
- LayerControls computes new orders but never stores them, so it has no observable behaviour to model.
- CanvasItem's callbacks into its parent and the colour swatch styling are UI. The colour palette is a parameter.
- `Renderer.RoughOptionsOf`: a fill that is explicitly the empty string is treated as absent, so it is passed on as undefined, because the model stores an absent fill as the empty string; the code would pass the empty string on.
- `Alignment.AlignMeaning`: stated only for canvases whose element ids are distinct. With duplicate ids the code's lookup would find the first match.
- `CanvasList.NewestFirstOrdered`: states the order and the permutation, not the stability of ties.
- `Migration.Migrated`: the migration pass uses the as-written `migrateCanvas`, so a versionless canvas stays unmigrated as in the code; see Findings.
- UI chrome (toolbars, modals, pickers, the sidebar and navbar wiring, `App.jsx` beyond its shortcut dispatch) is React rendering and is not part of this model.

## Findings

The classes and store functions mirror the code as written. The corrected definitions sit beside them, and the intended property is proved about each correction.

| source | as written | input that shows it | evidently intended | confidence | as-written member | corrected member |
|---|---|---|---|---|---|---|
| src/store/historyStore.js:135-140 | `getHistoryStats` reports `canUndo` as soon as the undo stack holds one entry | a history initialised with one snapshot: the stats say `canUndo`, `undo` returns `null` | `canUndo` agrees with the store's own `canUndo` (more than one entry) | not executed | History.StatsOverclaimUndo | History.StatsFixed |
| src/store/historyStore.js:77-97 | `redo` pushes the state shown before the redo, not the restored one, onto the undo stack | stack `[a, b]`, showing `b`: undo shows `a`; redo shows `b` but the stack becomes `[a, a]`; after pushing `c`, two undos both return `a` | the top of the undo stack stays the state on screen, so undo after redo goes back one step | not executed | History.RedoBreaksTopInvariant | History.UndoThenRedoFixed |
| src/tools/EraserTool.js:107-114 | an arrow is tested against its box's top-left to bottom-right diagonal | an arrow from (100, 0) to (0, 100): the eraser at its tail (100, 0) misses it, at the corner (0, 0) hits it | test against the arrow's own endpoints | not executed | EraserTool.ArrowDiagonalMisses | EraserTool.NearElementFixedEnds |
| src/components/Canvas/Canvas.jsx:155-169 | wheel zoom clamps to 5 and computes the scroll for that zoom, but `setZoom` clamps to 3 | zoom 3, wheel delta -1, mouse at x 100, scroll 0: scroll is computed for zoom 3.1 while the zoom stays 3, so the point under the mouse moves | clamp to the store's bounds first, so the point under the mouse stays put | not executed | CanvasView.WheelAtCapDrifts | CanvasView.WheelFixedKeepsPoint |
| src/utils/migration.js:14-36 | `migrateCanvas` takes a missing version as 1.0.0, while `migrateAllCanvases` selects the canvas as 0.0.0 | the stored canvas `{id: "c1", name: "Sketch"}`: selected for migration, returned without elements, still invalid | a missing version means 0.0.0 in both, so the canvas gains its defaults and validates | not executed | Migration.VersionlessStaysInvalid | Migration.FixedMigrationValidates |
| src/utils/export.js:216-230 | the SVG export draws an arrow only from its `points`, which arrows made by the arrow tool lack | any arrow drawn with the arrow tool: it is missing from the exported SVG | draw such an arrow along its endpoints | not executed | Export.ToolArrowsNotExported | Export.FixedArrowsExported |
