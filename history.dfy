/** The undo/redo history: two stacks of canvas snapshots, capped at 50 undo entries, with
    linear-history semantics (recording a new state forgets everything that was undone).

    The top of the undo stack stands for the state currently shown, so undoing needs at least
    two entries.  Snapshots are plain values here; the deep copies the store makes before
    storing a state are what make that sound. */
module History {
  import opened Base

  const MaxHistorySize: nat := 50

  /** The contents of both stacks; the last element of each sequence is its top. */
  datatype Stacks<T> = Stacks(undo: seq<T>, redo: seq<T>)

  /** What `getHistoryStats` reports. */
  datatype Stats = Stats(undoCount: nat, redoCount: nat, canUndo: bool, canRedo: bool)

  // ---------------------------------------------------------------- specification

  /** `pushState`: append, drop the oldest entry beyond the cap, forget the redo stack. */
  function AfterPush<T>(s: Stacks<T>, state: T): Stacks<T>
  {
    var u := s.undo + [state];
    Stacks(if |u| > MaxHistorySize then u[1..] else u, [])
  }

  /** `undo(current)`: the new state and the state to restore, or None with no change. */
  function AfterUndo<T>(s: Stacks<T>, current: T): (Stacks<T>, Option<T>)
  {
    if |s.undo| <= 1 then (s, None)
    else
      var u := s.undo[..|s.undo| - 1];
      (Stacks(u, s.redo + [current]), Some(u[|u| - 1]))
  }

  /** `redo(current)`: the new state and the state to restore, or None with no change. */
  function AfterRedo<T>(s: Stacks<T>, current: T): (Stacks<T>, Option<T>)
  {
    if |s.redo| == 0 then (s, None)
    else (Stacks(s.undo + [current], s.redo[..|s.redo| - 1]), Some(s.redo[|s.redo| - 1]))
  }

  predicate UndoAvailable<T>(s: Stacks<T>) { |s.undo| > 1 }

  predicate RedoAvailable<T>(s: Stacks<T>) { |s.redo| > 0 }

  /** `initializeHistory(state)`. */
  function Initial<T>(state: T): Stacks<T> { Stacks([state], []) }

  /** `getHistoryStats`, as written: its `canUndo` needs only one entry. */
  function StatsOf<T>(s: Stacks<T>): (r: Stats)
    ensures r.undoCount == |s.undo| && r.redoCount == |s.redo|
    ensures r.canUndo <==> |s.undo| > 0
    ensures r.canRedo <==> RedoAvailable(s)
  {
    Stats(|s.undo|, |s.redo|, |s.undo| > 0, |s.redo| > 0)
  }

  /** The invariant every operation keeps: the two stacks together hold at most 50 entries,
      so the undo stack alone never exceeds the cap, even though `redo` does not check it. */
  predicate Bounded<T>(s: Stacks<T>) { |s.undo| + |s.redo| <= MaxHistorySize }

  // ---------------------------------------------------------------- properties

  /** Pushing appends the state as the new top, keeps the newest earlier entries in order,
      drops the oldest only at the cap, and always empties the redo stack. */
  lemma PushShape<T>(s: Stacks<T>, state: T)
    requires |s.undo| <= MaxHistorySize
    ensures var r := AfterPush(s, state);
      && r.redo == []
      && |r.undo| >= 1 && r.undo[|r.undo| - 1] == state
      && |r.undo| <= MaxHistorySize
      && (|s.undo| < MaxHistorySize ==> r.undo == s.undo + [state])
      && (|s.undo| == MaxHistorySize ==> r.undo == s.undo[1..] + [state])
  {
    var u := s.undo + [state];
    if |s.undo| == MaxHistorySize {
      assert u[1..] == s.undo[1..] + [state];
    }
  }

  /** Undo with fewer than two entries refuses and changes nothing; otherwise it drops the
      top, hands the current state to the redo stack and returns the entry below the old top,
      which stays on the undo stack. */
  lemma UndoShape<T>(s: Stacks<T>, current: T)
    ensures var (r, prev) := AfterUndo(s, current);
      && (!UndoAvailable(s) <==> prev == None)
      && (!UndoAvailable(s) ==> r == s)
      && (UndoAvailable(s) ==>
            && r.undo + [s.undo[|s.undo| - 1]] == s.undo
            && r.redo == s.redo + [current]
            && prev == Some(s.undo[|s.undo| - 2])
            && r.undo[|r.undo| - 1] == s.undo[|s.undo| - 2])
  {
    if UndoAvailable(s) {
      var u := s.undo[..|s.undo| - 1];
      assert u + [s.undo[|s.undo| - 1]] == s.undo;
    }
  }

  /** Redo with an empty redo stack refuses; otherwise it returns the most recently undone
      state and pushes the current state onto the undo stack. */
  lemma RedoShape<T>(s: Stacks<T>, current: T)
    ensures var (r, next) := AfterRedo(s, current);
      && (!RedoAvailable(s) <==> next == None)
      && (!RedoAvailable(s) ==> r == s)
      && (RedoAvailable(s) ==>
            && r.undo == s.undo + [current]
            && r.redo + [s.redo[|s.redo| - 1]] == s.redo
            && next == Some(s.redo[|s.redo| - 1]))
  {
    if RedoAvailable(s) {
      assert s.redo[..|s.redo| - 1] + [s.redo[|s.redo| - 1]] == s.redo;
    }
  }

  /** Undoing from `current` and then redoing gives `current` back, restores the redo stack
      and both stack lengths.  The undo stack's top is now the restored previous state rather
      than the entry undo removed (see the findings). */
  lemma UndoThenRedo<T>(s: Stacks<T>, current: T)
    requires UndoAvailable(s)
    ensures var (s1, prev) := AfterUndo(s, current);
      && prev.Some?
      && var (s2, next) := AfterRedo(s1, prev.value);
      && next == Some(current)
      && s2.redo == s.redo
      && |s2.undo| == |s.undo|
      && s2.undo == s.undo[..|s.undo| - 1] + [s.undo[|s.undo| - 2]]
  {
    var (s1, prev) := AfterUndo(s, current);
    assert s1.redo[..|s1.redo| - 1] == s.redo;
  }

  /** Undo and redo move exactly one entry between the stacks (or none), so the combined
      length is unchanged. */
  lemma MoveKeepsTotal<T>(s: Stacks<T>, current: T)
    ensures |AfterUndo(s, current).0.undo| + |AfterUndo(s, current).0.redo| == |s.undo| + |s.redo|
    ensures |AfterRedo(s, current).0.undo| + |AfterRedo(s, current).0.redo| == |s.undo| + |s.redo|
  {
  }

  /** Every operation keeps the bound, so the undo stack never holds more than 50 entries. */
  lemma BoundedPreserved<T>(s: Stacks<T>, state: T)
    requires Bounded(s)
    ensures Bounded(AfterPush(s, state)) && Bounded(AfterUndo(s, state).0) && Bounded(AfterRedo(s, state).0)
    ensures Bounded(Initial(state))
    ensures |s.undo| <= MaxHistorySize
  {
  }

  /** `canUndo`/`canRedo` agree with what `undo`/`redo` do; a freshly initialised history can
      do neither. */
  lemma AvailabilityMatches<T>(s: Stacks<T>, current: T)
    ensures UndoAvailable(s) <==> AfterUndo(s, current).1.Some?
    ensures RedoAvailable(s) <==> AfterRedo(s, current).1.Some?
    ensures !UndoAvailable(Initial(current)) && !RedoAvailable(Initial(current))
    ensures !RedoAvailable(AfterPush(s, current))
  {
  }

  // ---------------------------------------------------------------- findings

  /** The stats' `canUndo` claims an undo is available for a single-entry history, for which
      `undo` refuses. */
  lemma StatsOverclaimUndo<T>(state: T)
    ensures StatsOf(Initial(state)).canUndo
    ensures AfterUndo(Initial(state), state).1 == None
  {
  }

  /** The stats as evidently intended: `canUndo` as the store's own `canUndo` decides it. */
  function StatsFixed<T>(s: Stacks<T>): (r: Stats)
    ensures r.canUndo <==> UndoAvailable(s)
    ensures r.canRedo <==> RedoAvailable(s)
    ensures r.undoCount == |s.undo| && r.redoCount == |s.redo|
  {
    Stats(|s.undo|, |s.redo|, |s.undo| > 1, |s.redo| > 0)
  }

  /** Redo as written pushes the state being left rather than the state restored, so after
      undo, redo and a new push, the next undo restores the state already shown: with history
      [a, b] and b shown, undo shows a, redo shows b again but the stack becomes [a, a]; after
      pushing c, undo shows a and a second undo returns a once more. */
  lemma RedoBreaksTopInvariant<T>(a: T, b: T, c: T)
    ensures var (s1, p1) := AfterUndo(Stacks([a, b], []), b);
      && p1 == Some(a)
      && var (s2, n2) := AfterRedo(s1, a);
      && n2 == Some(b)
      && s2.undo == [a, a]
      && var s3 := AfterPush(s2, c);
      && var (s4, p4) := AfterUndo(s3, c);
      && p4 == Some(a)
      && AfterUndo(s4, a).1 == Some(a)
  {
    assert AfterPush(Stacks([a, a], []), c).undo == [a, a, c];
  }

  /** The top of the undo stack is the state on screen. */
  ghost predicate TopIs<T>(s: Stacks<T>, shown: T) { |s.undo| > 0 && s.undo[|s.undo| - 1] == shown }

  /** Redo as evidently intended: the restored state becomes the new top of the undo stack. */
  function AfterRedoFixed<T>(s: Stacks<T>, current: T): (r: (Stacks<T>, Option<T>))
    ensures r.1.Some? ==> TopIs(r.0, r.1.value)
    ensures r.1.Some? <==> RedoAvailable(s)
  {
    if |s.redo| == 0 then (s, None)
    else
      var next := s.redo[|s.redo| - 1];
      (Stacks(s.undo + [next], s.redo[..|s.redo| - 1]), Some(next))
  }

  /** With the fixed redo, undo followed by redo restores both stacks exactly, and the top of
      the undo stack keeps matching the state shown. */
  lemma {:induction false} UndoThenRedoFixed<T>(s: Stacks<T>, current: T)
    requires UndoAvailable(s) && TopIs(s, current)
    ensures var (s1, prev) := AfterUndo(s, current);
      && prev.Some? && TopIs(s1, prev.value)
      && AfterRedoFixed(s1, prev.value) == (s, Some(current))
  {
    var (s1, prev) := AfterUndo(s, current);
    assert s1.undo + [current] == s.undo;
    assert s1.redo[..|s1.redo| - 1] == s.redo;
  }

  // ---------------------------------------------------------------- the store

  /** The history store; `undoStack` and `redoStack` are replaced wholesale by each action. */
  class HistoryStore<T> {
    var undoStack: seq<T>
    var redoStack: seq<T>

    function State(): Stacks<T>
      reads this
    {
      Stacks(undoStack, redoStack)
    }

    ghost predicate Valid()
      reads this
    {
      Bounded(State())
    }

    constructor()
      ensures undoStack == [] && redoStack == [] && Valid()
    {
      undoStack := [];
      redoStack := [];
    }

    method PushState(state: T)
      requires Valid()
      modifies this
      ensures State() == AfterPush(old(State()), state) && Valid()
    {
      var newUndo := undoStack + [state];
      if |newUndo| > MaxHistorySize {
        newUndo := newUndo[1..];
      }
      undoStack := newUndo;
      redoStack := [];
    }

    method Undo(current: T) returns (previous: Option<T>)
      requires Valid()
      modifies this
      ensures (State(), previous) == AfterUndo(old(State()), current) && Valid()
    {
      if |undoStack| <= 1 {
        return None;
      }
      var newUndo := undoStack[..|undoStack| - 1];
      previous := Some(newUndo[|newUndo| - 1]);
      undoStack := newUndo;
      redoStack := redoStack + [current];
    }

    method Redo(current: T) returns (next: Option<T>)
      requires Valid()
      modifies this
      ensures (State(), next) == AfterRedo(old(State()), current) && Valid()
    {
      if |redoStack| == 0 {
        return None;
      }
      next := Some(redoStack[|redoStack| - 1]);
      undoStack := undoStack + [current];
      redoStack := redoStack[..|redoStack| - 1];
    }

    function CanUndo(): (b: bool)
      reads this
      ensures b <==> UndoAvailable(State())
    {
      |undoStack| > 1
    }

    function CanRedo(): (b: bool)
      reads this
      ensures b <==> RedoAvailable(State())
    {
      |redoStack| > 0
    }

    method ClearHistory()
      modifies this
      ensures undoStack == [] && redoStack == [] && Valid()
    {
      undoStack := [];
      redoStack := [];
    }

    method InitializeHistory(state: T)
      modifies this
      ensures State() == Initial(state) && Valid()
    {
      undoStack := [state];
      redoStack := [];
    }

    method GetHistoryStats() returns (stats: Stats)
      ensures stats == StatsOf(State())
    {
      stats := Stats(|undoStack|, |redoStack|, |undoStack| > 0, |redoStack| > 0);
    }
  }
}
