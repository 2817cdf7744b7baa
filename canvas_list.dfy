/** The canvas manager's list: the case-insensitive search filter, the newest-first order,
    and one list item's rename box and action-menu placement. */
module CanvasList {
  import opened Base
  import opened Strings
  import opened Types

  // ---------------------------------------------------------------- search and order

  /** `canvas.name.toLowerCase().includes(searchTerm.toLowerCase())`. */
  predicate Matches(c: Canvas, term: string)
  {
    IncludesStr(Lower(c.name), Lower(term))
  }

  /** The canvases whose name matches the search term, in list order. */
  function SearchFilter(canvases: seq<Canvas>, term: string): seq<Canvas>
  {
    if canvases == [] then []
    else (if Matches(canvases[0], term) then [canvases[0]] else []) + SearchFilter(canvases[1..], term)
  }

  /** The filter keeps exactly the canvases whose lower-cased name contains the lower-cased
      term. */
  lemma {:induction false} SearchFilterMembers(canvases: seq<Canvas>, term: string)
    ensures forall c :: (c in SearchFilter(canvases, term)
                         <==> c in canvases && Includes(Lower(c.name), Lower(term)))
  {
    if canvases != [] {
      SearchFilterMembers(canvases[1..], term);
      assert forall c :: c in canvases <==> c == canvases[0] || c in canvases[1..];
    }
  }

  /** An empty search term keeps the whole list, in its order. */
  lemma {:induction false} EmptyTermKeepsAll(canvases: seq<Canvas>)
    ensures SearchFilter(canvases, "") == canvases
  {
    if canvases != [] {
      IncludesTrivial(Lower(canvases[0].name));
      EmptyTermKeepsAll(canvases[1..]);
      assert [canvases[0]] + canvases[1..] == canvases;
    }
  }

  /** `updatedAt` never increases along the list. */
  predicate NewestFirstOrder(s: seq<Canvas>)
  {
    forall i, j :: 0 <= i < j < |s| ==> s[i].updatedAt >= s[j].updatedAt
  }

  /** Puts `c` before the first canvas not newer than it. */
  function Insert(c: Canvas, s: seq<Canvas>): seq<Canvas>
  {
    if s == [] || s[0].updatedAt <= c.updatedAt then [c] + s
    else [s[0]] + Insert(c, s[1..])
  }

  /** The comparator `b.updatedAt - a.updatedAt`: a copy of the list, newest first. */
  function NewestFirst(s: seq<Canvas>): seq<Canvas>
  {
    if s == [] then [] else Insert(s[0], NewestFirst(s[1..]))
  }

  /** Inserting adds exactly the one canvas. */
  lemma {:induction false} InsertPermutes(c: Canvas, s: seq<Canvas>)
    ensures multiset(Insert(c, s)) == multiset(s) + multiset{c}
  {
    if !(s == [] || s[0].updatedAt <= c.updatedAt) {
      InsertPermutes(c, s[1..]);
      assert s == [s[0]] + s[1..];
    }
  }

  /** A canvas not older than the head of an ordered list can go in front of it. */
  lemma PrependOrdered(c: Canvas, s: seq<Canvas>)
    requires NewestFirstOrder(s) && (s == [] || s[0].updatedAt <= c.updatedAt)
    ensures NewestFirstOrder([c] + s)
  {
    var r := [c] + s;
    forall i, j | 0 <= i < j < |r| ensures r[i].updatedAt >= r[j].updatedAt {
      if i == 0 && j > 1 {
        assert r[j] == s[j - 1] && s[0].updatedAt >= s[j - 1].updatedAt;
      }
    }
  }

  /** Inserting into an ordered list keeps it ordered. */
  lemma {:induction false} InsertOrdered(c: Canvas, s: seq<Canvas>)
    requires NewestFirstOrder(s)
    ensures NewestFirstOrder(Insert(c, s))
  {
    if s == [] || s[0].updatedAt <= c.updatedAt {
      PrependOrdered(c, s);
    } else {
      var tail := Insert(c, s[1..]);
      InsertOrdered(c, s[1..]);
      assert tail[0] == c || tail[0] == s[1];
      PrependOrdered(s[0], tail);
    }
  }

  /** The sorted copy is ordered newest first. */
  lemma {:induction false} NewestFirstOrdered(s: seq<Canvas>)
    ensures NewestFirstOrder(NewestFirst(s))
  {
    if s != [] {
      NewestFirstOrdered(s[1..]);
      InsertOrdered(s[0], NewestFirst(s[1..]));
    }
  }

  /** The sorted copy holds the same canvases, each as often. */
  lemma {:induction false} NewestFirstPermutes(s: seq<Canvas>)
    ensures multiset(NewestFirst(s)) == multiset(s)
  {
    if s != [] {
      NewestFirstPermutes(s[1..]);
      InsertPermutes(s[0], NewestFirst(s[1..]));
      assert s == [s[0]] + s[1..];
    }
  }

  /** The list as shown: the matching canvases, newest first. */
  function Shown(canvases: seq<Canvas>, term: string): seq<Canvas>
  {
    NewestFirst(SearchFilter(canvases, term))
  }

  /** The shown list is ordered newest first and shows exactly the matching canvases. */
  lemma ShownMeaning(canvases: seq<Canvas>, term: string)
    ensures NewestFirstOrder(Shown(canvases, term))
    ensures forall c :: c in Shown(canvases, term) <==> c in canvases && Includes(Lower(c.name), Lower(term))
  {
    var f := SearchFilter(canvases, term);
    NewestFirstOrdered(f);
    NewestFirstPermutes(f);
    SearchFilterMembers(canvases, term);
    assert forall c :: c in NewestFirst(f) <==> c in multiset(NewestFirst(f));
  }

  // ---------------------------------------------------------------- rename

  /** The name `handleRename` passes to `onRename`: the trimmed text, when it is non-empty
      and differs from the current name; None when no rename is requested. */
  function RenameTo(editName: string, current: string): Option<string>
  {
    var name := Trim(editName);
    if |name| > 0 && name != current then Some(name) else None
  }

  /** A requested name is non-empty, has no white space at either end, occurs in the typed
      text and differs from the current name; typing it again after the rename requests
      nothing more. */
  lemma RenameToMeaning(editName: string, current: string)
    ensures var r := RenameTo(editName, current);
      && (r.Some? <==> Trim(editName) != "" && Trim(editName) != current)
      && (r.Some? ==> r.value != "" && r.value != current && Includes(editName, r.value)
                      && !IsWhiteSpace(r.value[0]) && !IsWhiteSpace(r.value[|r.value| - 1])
                      && RenameTo(editName, r.value).None?)
  {
    TrimShape(editName);
  }

  /** After Escape the box holds the current name again, and confirming it requests no
      rename when that name has no white space at either end. */
  lemma RestoredNameRenamesNothing(name: string)
    requires name == [] || (!IsWhiteSpace(name[0]) && !IsWhiteSpace(name[|name| - 1]))
    ensures RenameTo(name, name).None?
  {
  }

  // ---------------------------------------------------------------- menu placement

  /** The part of the button's `getBoundingClientRect()` the menu placement reads. */
  datatype Rect = Rect(top: real, right: real, bottom: real)

  const MenuWidth: real := 176.0
  const MenuHeight: real := 180.0
  const MenuGap: real := 4.0
  const MinLeft: real := 8.0

  /** The placement effect: below the button, right edges aligned; above the button when
      it would run past the bottom of the window; never closer than 8 to the left edge. */
  method MenuPosition(button: Rect, innerHeight: real) returns (top: real, left: real)
    ensures left == Max(button.right - MenuWidth, MinLeft)
    ensures button.bottom + MenuGap + MenuHeight <= innerHeight ==>
      top == button.bottom + MenuGap && top + MenuHeight <= innerHeight
    ensures button.bottom + MenuGap + MenuHeight > innerHeight ==>
      top + MenuHeight + MenuGap == button.top
  {
    top := button.bottom + MenuGap;
    left := button.right - MenuWidth;
    if top + MenuHeight > innerHeight {
      top := button.top - MenuHeight - MenuGap;
    }
    if left < MinLeft {
      left := MinLeft;
    }
  }

  // ---------------------------------------------------------------- one list item

  /** The state of one list item: the rename box and the action menu. */
  class Item {
    var isEditing: bool
    var editName: string
    var showMenu: bool
    var menuTop: real
    var menuLeft: real

    constructor(name: string)
      ensures !isEditing && editName == name && !showMenu && menuTop == 0.0 && menuLeft == 0.0
    {
      isEditing := false;
      editName := name;
      showMenu := false;
      menuTop := 0.0;
      menuLeft := 0.0;
    }

    /** The menu button: toggles the menu; opening it places it next to the button. */
    method ToggleMenu(button: Rect, innerHeight: real)
      modifies `showMenu, `menuTop, `menuLeft
      ensures showMenu == !old(showMenu)
      ensures showMenu ==> (
        && menuLeft == Max(button.right - MenuWidth, MinLeft)
        && (button.bottom + MenuGap + MenuHeight <= innerHeight ==> menuTop == button.bottom + MenuGap)
        && (button.bottom + MenuGap + MenuHeight > innerHeight ==> menuTop + MenuHeight + MenuGap == button.top))
      ensures !showMenu ==> menuTop == old(menuTop) && menuLeft == old(menuLeft)
    {
      showMenu := !showMenu;
      if showMenu {
        menuTop, menuLeft := MenuPosition(button, innerHeight);
      }
    }

    /** The backdrop and the open, duplicate and delete entries close the menu; the parent's
        callbacks they also call are not part of this model. */
    method CloseMenu()
      modifies `showMenu
      ensures !showMenu
    {
      showMenu := false;
    }

    /** The rename entry: enter edit mode and close the menu. */
    method StartRename()
      modifies `isEditing, `showMenu
      ensures isEditing && !showMenu
    {
      isEditing := true;
      showMenu := false;
    }

    /** Typing in the rename box. */
    method Type(text: string)
      modifies `editName
      ensures editName == text
    {
      editName := text;
    }

    /** `handleRename` (Enter or the check button): returns the name passed to `onRename`,
        if any, and always leaves edit mode and closes the menu. */
    method HandleRename(current: string) returns (renamed: Option<string>)
      modifies `isEditing, `showMenu
      ensures renamed == RenameTo(editName, current)
      ensures !isEditing && !showMenu
    {
      var name := Trim(editName);
      renamed := None;
      if |name| > 0 && name != current {
        renamed := Some(name);
      }
      isEditing := false;
      showMenu := false;
    }

    /** Escape or the cancel button: leave edit mode and restore the current name. */
    method Cancel(current: string)
      modifies `isEditing, `editName
      ensures !isEditing && editName == current
    {
      isEditing := false;
      editName := current;
    }

    /** A key press in the rename box: Enter renames, Escape cancels, any other key does
        nothing. */
    method KeyDown(key: string, current: string) returns (renamed: Option<string>)
      modifies `isEditing, `showMenu, `editName
      ensures key == "Enter" ==>
        renamed == RenameTo(old(editName), current) && !isEditing && !showMenu && editName == old(editName)
      ensures key == "Escape" ==>
        renamed.None? && !isEditing && editName == current && showMenu == old(showMenu)
      ensures key != "Enter" && key != "Escape" ==>
        renamed.None? && unchanged(this)
    {
      renamed := None;
      if key == "Enter" {
        renamed := HandleRename(current);
      }
      if key == "Escape" {
        Cancel(current);
      }
    }
  }
}
