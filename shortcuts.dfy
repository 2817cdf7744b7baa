/** Keyboard shortcuts: the combination string built from a key press, the handler lookup,
    and the tool, undo/redo and select-all shortcut tables the application installs. */
module Shortcuts {
  import opened Base
  import opened Strings
  import opened ToolRegistry

  /** The parts of a `keydown` event the listener reads. */
  datatype KeyEvent = KeyEvent(
    tagName: string, isContentEditable: bool, key: string,
    ctrlKey: bool, metaKey: bool, shiftKey: bool, altKey: bool)

  /** What a shortcut's handler does. */
  datatype Action = SetTool(tool: ToolKind) | Undo | Redo | SelectAll

  /** Key presses in an input, a text area or an editable element are left to it. */
  predicate Typing(e: KeyEvent)
  {
    e.tagName == "INPUT" || e.tagName == "TEXTAREA" || e.isContentEditable
  }

  /** Control or, on a Mac, Command. */
  predicate Ctrl(e: KeyEvent) { e.ctrlKey || e.metaKey }

  /** Any of the three modifiers the combination records is held. */
  predicate Modified(e: KeyEvent) { Ctrl(e) || e.shiftKey || e.altKey }

  /** The combination string: "ctrl+", "shift+" and "alt+" for each modifier held, in that
      order, then the lower-cased key. */
  function CombinationOf(ctrl: bool, shift: bool, alt: bool, key: string): string
  {
    (if ctrl then "ctrl+" else "") + (if shift then "shift+" else "") + (if alt then "alt+" else "")
    + Lower(key)
  }

  /** The listener's string building, one `+=` at a time. */
  method Combination(e: KeyEvent) returns (combination: string)
    ensures combination == CombinationOf(Ctrl(e), e.shiftKey, e.altKey, e.key)
  {
    var key := Lower(e.key);
    var ctrl := e.ctrlKey || e.metaKey;
    combination := "";
    if ctrl {
      combination := combination + "ctrl+";
    }
    if e.shiftKey {
      combination := combination + "shift+";
    }
    if e.altKey {
      combination := combination + "alt+";
    }
    combination := combination + key;
  }

  /** For a one-character key the combination string tells which modifiers were held and
      which key was pressed, up to case. */
  lemma CombinationDecodes(c1: bool, s1: bool, a1: bool, k1: string, c2: bool, s2: bool, a2: bool, k2: string)
    requires |k1| == 1 && |k2| == 1
    requires CombinationOf(c1, s1, a1, k1) == CombinationOf(c2, s2, a2, k2)
    ensures c1 == c2 && s1 == s2 && a1 == a2 && LowerChar(k1[0]) == LowerChar(k2[0])
  {
    var x := CombinationOf(c1, s1, a1, k1);
    var y := CombinationOf(c2, s2, a2, k2);
    assert |x| == (if c1 then 5 else 0) + (if s1 then 6 else 0) + (if a1 then 4 else 0) + 1;
    assert |y| == (if c2 then 5 else 0) + (if s2 then 6 else 0) + (if a2 then 4 else 0) + 1;
    assert x[|x| - 1] == LowerChar(k1[0]) && y[|y| - 1] == LowerChar(k2[0]);
  }

  /** `shortcuts[combination] || (no modifier ? shortcuts[key] : null)`. */
  function Lookup(shortcuts: map<string, Action>, e: KeyEvent): Option<Action>
  {
    var key := Lower(e.key);
    var combination := CombinationOf(Ctrl(e), e.shiftKey, e.altKey, e.key);
    if combination in shortcuts then Some(shortcuts[combination])
    else if !Modified(e) && key in shortcuts then Some(shortcuts[key])
    else None
  }

  /** What the listener does with a key press: nothing while typing, otherwise the handler
      found, if any. */
  function Dispatch(shortcuts: map<string, Action>, e: KeyEvent): Option<Action>
  {
    if Typing(e) then None else Lookup(shortcuts, e)
  }

  /** With no modifier held the combination is just the lower-cased key. */
  lemma Unmodified(e: KeyEvent)
    ensures !Modified(e) ==> CombinationOf(Ctrl(e), e.shiftKey, e.altKey, e.key) == Lower(e.key)
  {
    assert "" + "" + "" + Lower(e.key) == Lower(e.key);
  }

  /** The exact combination wins; without it, a modified press finds nothing, and an
      unmodified one finds the handler under its lower-cased key, which for an unmodified
      press is the combination itself. */
  lemma DispatchMeaning(shortcuts: map<string, Action>, e: KeyEvent)
    ensures Typing(e) ==> Dispatch(shortcuts, e).None?
    ensures !Typing(e) ==>
      var combination := CombinationOf(Ctrl(e), e.shiftKey, e.altKey, e.key);
      && (combination in shortcuts ==> Dispatch(shortcuts, e) == Some(shortcuts[combination]))
      && (combination !in shortcuts ==> Dispatch(shortcuts, e).None?)
      && (!Modified(e) ==> combination == Lower(e.key))
  {
    Unmodified(e);
  }

  /** The `keydown` listener.  It is installed only while enabled; when a handler is found
      the default action is prevented, the other listeners are stopped and the handler's
      action is returned. */
  method OnKeyDown(shortcuts: map<string, Action>, enabled: bool, e: KeyEvent)
    returns (prevented: bool, stopped: bool, fired: Option<Action>)
    ensures fired == (if enabled then Dispatch(shortcuts, e) else None)
    ensures prevented == stopped == fired.Some?
  {
    prevented, stopped, fired := false, false, None;
    if !enabled {
      return;
    }
    if e.tagName == "INPUT" || e.tagName == "TEXTAREA" || e.isContentEditable {
      return;
    }
    var key := Lower(e.key);
    var ctrl := e.ctrlKey || e.metaKey;
    var combination := Combination(e);
    var handler := None;
    if combination in shortcuts {
      handler := Some(shortcuts[combination]);
    } else if !ctrl && !e.shiftKey && !e.altKey && key in shortcuts {
      handler := Some(shortcuts[key]);
    }
    if handler.Some? {
      prevented := true;
      stopped := true;
      fired := handler;
    }
  }

  // ---------------------------------------------------------------- the installed tables

  /** `useToolShortcuts`: one letter per tool. */
  function ToolShortcuts(): map<string, Action>
  {
    map["v" := SetTool(Select), "r" := SetTool(Rectangle), "o" := SetTool(Ellipse),
        "a" := SetTool(Arrow), "p" := SetTool(Draw), "t" := SetTool(Text), "e" := SetTool(Eraser)]
  }

  /** `useUndoRedoShortcuts`. */
  function UndoRedoShortcuts(): map<string, Action>
  {
    map["ctrl+z" := Undo, "ctrl+shift+z" := Redo, "ctrl+y" := Redo]
  }

  /** `useSelectAllShortcut`. */
  function SelectAllShortcuts(): map<string, Action>
  {
    map["ctrl+a" := SelectAll]
  }

  /** The three listeners in the order the application installs them; the first that finds
      a handler stops the others. */
  function AppDispatch(e: KeyEvent): Option<Action>
  {
    var t := Dispatch(ToolShortcuts(), e);
    var u := Dispatch(UndoRedoShortcuts(), e);
    if t.Some? then t else if u.Some? then u else Dispatch(SelectAllShortcuts(), e)
  }

  /** A one-character press produces the combination of a given modifier set and lower-case
      letter exactly when those modifiers are held and that letter pressed, in either case. */
  lemma Produces(e: KeyEvent, ctrl: bool, shift: bool, alt: bool, k: char)
    requires |e.key| == 1 && 'a' <= k <= 'z'
    ensures CombinationOf(Ctrl(e), e.shiftKey, e.altKey, e.key) == CombinationOf(ctrl, shift, alt, [k])
      <==> Ctrl(e) == ctrl && e.shiftKey == shift && e.altKey == alt && LowerChar(e.key[0]) == k
  {
    assert Lower(e.key) == [LowerChar(e.key[0])];
    assert Lower([k]) == [k];
    if CombinationOf(Ctrl(e), e.shiftKey, e.altKey, e.key) == CombinationOf(ctrl, shift, alt, [k]) {
      CombinationDecodes(Ctrl(e), e.shiftKey, e.altKey, e.key, ctrl, shift, alt, [k]);
    }
  }

  /** The table keys, as combinations. */
  lemma TableKeys()
    ensures "ctrl+z" == CombinationOf(true, false, false, "z")
    ensures "ctrl+shift+z" == CombinationOf(true, true, false, "z")
    ensures "ctrl+y" == CombinationOf(true, false, false, "y")
    ensures "ctrl+a" == CombinationOf(true, false, false, "a")
  {
  }

  /** An unmodified press of a tool letter, in either case, picks that tool; with any
      modifier held no tool shortcut fires. */
  lemma ToolKeys(e: KeyEvent)
    requires !Typing(e) && |e.key| == 1
    ensures !Modified(e) ==>
      && (LowerChar(e.key[0]) == 'v' ==> Dispatch(ToolShortcuts(), e) == Some(SetTool(Select)))
      && (LowerChar(e.key[0]) == 'r' ==> Dispatch(ToolShortcuts(), e) == Some(SetTool(Rectangle)))
      && (LowerChar(e.key[0]) == 'o' ==> Dispatch(ToolShortcuts(), e) == Some(SetTool(Ellipse)))
      && (LowerChar(e.key[0]) == 'a' ==> Dispatch(ToolShortcuts(), e) == Some(SetTool(Arrow)))
      && (LowerChar(e.key[0]) == 'p' ==> Dispatch(ToolShortcuts(), e) == Some(SetTool(Draw)))
      && (LowerChar(e.key[0]) == 't' ==> Dispatch(ToolShortcuts(), e) == Some(SetTool(Text)))
      && (LowerChar(e.key[0]) == 'e' ==> Dispatch(ToolShortcuts(), e) == Some(SetTool(Eraser)))
    ensures Modified(e) ==> Dispatch(ToolShortcuts(), e).None?
  {
    var c := CombinationOf(Ctrl(e), e.shiftKey, e.altKey, e.key);
    assert Lower(e.key) == [LowerChar(e.key[0])];
    Unmodified(e);
    if Modified(e) {
      assert |c| > 1;
    }
  }

  /** Control (or Command) with Z undoes; adding Shift, or Control with Y, redoes; any
      other modifier mix with these letters does nothing. */
  lemma UndoRedoKeys(e: KeyEvent)
    requires !Typing(e) && |e.key| == 1
    ensures var k := LowerChar(e.key[0]); var u := Dispatch(UndoRedoShortcuts(), e);
      && (u == Some(Undo) <==> k == 'z' && Ctrl(e) && !e.shiftKey && !e.altKey)
      && (u == Some(Redo) <==> (k == 'z' && Ctrl(e) && e.shiftKey && !e.altKey)
                               || (k == 'y' && Ctrl(e) && !e.shiftKey && !e.altKey))
      && (u.Some? ==> u == Some(Undo) || u == Some(Redo))
  {
    TableKeys();
    Produces(e, true, false, false, 'z');
    Produces(e, true, true, false, 'z');
    Produces(e, true, false, false, 'y');
    var c := CombinationOf(Ctrl(e), e.shiftKey, e.altKey, e.key);
    Unmodified(e);
    assert !Modified(e) ==> |c| == 1;
  }

  /** Control (or Command) with A, and no other modifier, selects everything. */
  lemma SelectAllKey(e: KeyEvent)
    requires !Typing(e) && |e.key| == 1
    ensures Dispatch(SelectAllShortcuts(), e) == Some(SelectAll)
      <==> LowerChar(e.key[0]) == 'a' && Ctrl(e) && !e.shiftKey && !e.altKey
  {
    TableKeys();
    Produces(e, true, false, false, 'a');
    var c := CombinationOf(Ctrl(e), e.shiftKey, e.altKey, e.key);
    Unmodified(e);
    assert !Modified(e) ==> |c| == 1;
  }

  /** The three tables never answer the same key press, so stopping the later listeners
      never hides a shortcut: the application's answer is the one table that has it. */
  lemma TablesDisjoint(e: KeyEvent)
    ensures Dispatch(ToolShortcuts(), e).Some? ==>
      Dispatch(UndoRedoShortcuts(), e).None? && Dispatch(SelectAllShortcuts(), e).None?
    ensures Dispatch(UndoRedoShortcuts(), e).Some? ==> Dispatch(SelectAllShortcuts(), e).None?
  {
    var c := CombinationOf(Ctrl(e), e.shiftKey, e.altKey, e.key);
    Unmodified(e);
    if Dispatch(ToolShortcuts(), e).Some? {
      assert !Modified(e);
      assert |c| == 1;
    }
  }

  /** Installing the three listeners one after the other answers a key press as the one
      table that has it does, and nothing when none has it. */
  lemma AppDispatchMeaning(e: KeyEvent)
    ensures forall m :: m in {ToolShortcuts(), UndoRedoShortcuts(), SelectAllShortcuts()} && Dispatch(m, e).Some? ==>
      AppDispatch(e) == Dispatch(m, e)
    ensures AppDispatch(e).None? ==>
      Dispatch(ToolShortcuts(), e).None? && Dispatch(UndoRedoShortcuts(), e).None? && Dispatch(SelectAllShortcuts(), e).None?
  {
    TablesDisjoint(e);
  }
}
