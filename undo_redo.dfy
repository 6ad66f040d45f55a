/**
  The undo/redo history hook: a bounded past, the present value and a future.
  An ordinary update pushes the present onto the past (dropping the oldest
  entry beyond the size limit) and discards the future; undo and redo move one
  value across the present. While the undo/redo flag is raised, an update only
  replaces the present. The flag is lowered by a zero-delay timer, modelled as
  the explicit method `FlagTimerFires`.
 */
module UndoRedo {
  import opened Common

  datatype History<T> = History(past: seq<T>, present: T, future: seq<T>)

  const DefaultMaxHistorySize: nat := 50

  /** The whole timeline, oldest first: undo and redo walk along it. */
  function Timeline<T>(h: History<T>): seq<T>
  {
    h.past + [h.present] + h.future
  }

  /** The size invariant: past and future together never exceed the limit. */
  predicate Bounded<T>(h: History<T>, maxHistorySize: nat)
  {
    |h.past| + |h.future| <= maxHistorySize
  }

  function CanUndo<T>(h: History<T>): (r: bool)
    ensures r <==> h.past != []
  {
    |h.past| > 0
  }

  function CanRedo<T>(h: History<T>): (r: bool)
    ensures r <==> h.future != []
  {
    |h.future| > 0
  }

  function HistoryLength<T>(h: History<T>): nat
  {
    |h.past| + |h.future|
  }

  /** An ordinary update to v: the present joins the end of the past, the oldest entry is
      dropped when the past would exceed the limit, and the future is discarded. */
  function Recorded<T>(h: History<T>, v: T, maxHistorySize: nat): (r: History<T>)
    ensures r.present == v && r.future == []
    ensures |h.past| + 1 <= maxHistorySize ==> r.past == h.past + [h.present]
    ensures |h.past| + 1 > maxHistorySize && h.past != [] ==> r.past == h.past[1..] + [h.present]
    ensures |h.past| + 1 > maxHistorySize && h.past == [] ==> r.past == []
    ensures Bounded(h, maxHistorySize) ==> Bounded(r, maxHistorySize)
  {
    var newPast := h.past + [h.present];
    History(if |newPast| > maxHistorySize then newPast[1..] else newPast, v, [])
  }

  /** `setState(v)`: with the undo/redo flag raised only the present is replaced. */
  function Updated<T>(h: History<T>, undoRedoFlag: bool, v: T, maxHistorySize: nat): (r: History<T>)
    ensures undoRedoFlag ==> r.past == h.past && r.future == h.future
    ensures r.present == v
    ensures !undoRedoFlag ==> r.future == []
    ensures Bounded(h, maxHistorySize) ==> Bounded(r, maxHistorySize)
  {
    if undoRedoFlag then h.(present := v) else Recorded(h, v, maxHistorySize)
  }

  /** `undo`: the last past value becomes the present and the present heads the future;
      with an empty past nothing changes. */
  function Undone<T>(h: History<T>): (r: History<T>)
    ensures h.past == [] ==> r == h
    ensures h.past != [] ==> |r.past| == |h.past| - 1 && |r.future| == |h.future| + 1
  {
    if |h.past| == 0 then h
    else History(h.past[..|h.past| - 1], h.past[|h.past| - 1], [h.present] + h.future)
  }

  /** `redo`: the first future value becomes the present and the present joins the past;
      with an empty future nothing changes. */
  function Redone<T>(h: History<T>): (r: History<T>)
    ensures h.future == [] ==> r == h
    ensures h.future != [] ==> |r.past| == |h.past| + 1 && |r.future| == |h.future| - 1
  {
    if |h.future| == 0 then h
    else History(h.past + [h.present], h.future[0], h.future[1..])
  }

  /** `clearHistory`: past and future are emptied, the present is kept. */
  function Cleared<T>(h: History<T>): (r: History<T>)
    ensures r.present == h.present && HistoryLength(r) == 0
  {
    History([], h.present, [])
  }

  /** `reset(newInitialState)`: an empty history at the given value, or at the hook's
      initial value when none is given. */
  function ResetTo<T>(initialState: T, newInitialState: Option<T>): (r: History<T>)
    ensures HistoryLength(r) == 0
    ensures r.present == if newInitialState.Some? then newInitialState.value else initialState
  {
    History([], if newInitialState.Some? then newInitialState.value else initialState, [])
  }

  // ---------------------------------------------------------------- properties

  /** Undo then redo restores the history exactly. */
  lemma UndoThenRedo<T>(h: History<T>)
    requires CanUndo(h)
    ensures Redone(Undone(h)) == h
  {
    assert h.past[..|h.past| - 1] + [h.past[|h.past| - 1]] == h.past;
  }

  /** Redo then undo restores the history exactly. */
  lemma RedoThenUndo<T>(h: History<T>)
    requires CanRedo(h)
    ensures Undone(Redone(h)) == h
  {
    assert [h.future[0]] + h.future[1..] == h.future;
  }

  /** Undo and redo keep the timeline and its length and move the present by one place. */
  lemma UndoRedoWalkTimeline<T>(h: History<T>)
    ensures Timeline(Undone(h)) == Timeline(h) && Timeline(Redone(h)) == Timeline(h)
    ensures HistoryLength(Undone(h)) == HistoryLength(h) && HistoryLength(Redone(h)) == HistoryLength(h)
    ensures CanUndo(h) ==> |Undone(h).past| == |h.past| - 1
    ensures CanRedo(h) ==> |Redone(h).past| == |h.past| + 1
  {
    if CanUndo(h) {
      var p := h.past[..|h.past| - 1];
      assert p + [h.past[|h.past| - 1]] == h.past;
      assert Timeline(Undone(h)) == p + [h.past[|h.past| - 1]] + ([h.present] + h.future);
    }
    if CanRedo(h) {
      assert [h.future[0]] + h.future[1..] == h.future;
      assert Timeline(Redone(h)) == (h.past + [h.present]) + [h.future[0]] + h.future[1..];
    }
  }

  /** Every operation keeps past and future within the limit. */
  lemma BoundedPreserved<T>(h: History<T>, flag: bool, v: T, initialState: T, newInitialState: Option<T>, maxHistorySize: nat)
    requires Bounded(h, maxHistorySize)
    ensures Bounded(Updated(h, flag, v, maxHistorySize), maxHistorySize)
    ensures Bounded(Undone(h), maxHistorySize) && Bounded(Redone(h), maxHistorySize)
    ensures Bounded(Cleared(h), maxHistorySize) && Bounded(ResetTo(initialState, newInitialState), maxHistorySize)
  {
  }

  /** An update after an undo discards what could have been redone. */
  lemma UpdateDropsRedo<T>(h: History<T>, v: T, maxHistorySize: nat)
    requires CanUndo(h)
    ensures !CanRedo(Updated(Undone(h), false, v, maxHistorySize))
  {
  }

  // ---------------------------------------------------------------- the hook

  class UndoRedoHistory<T> {
    const initialState: T
    const maxHistorySize: nat
    var history: History<T>
    /** `isUndoRedoRef.current`. */
    var undoRedoFlag: bool

    ghost predicate Valid()
      reads this
    {
      Bounded(history, maxHistorySize)
    }

    constructor(initialState: T, maxHistorySize: nat)
      ensures Valid() && !undoRedoFlag
      ensures this.initialState == initialState && this.maxHistorySize == maxHistorySize
      ensures history == History([], initialState, [])
    {
      this.initialState := initialState;
      this.maxHistorySize := maxHistorySize;
      history := History([], initialState, []);
      undoRedoFlag := false;
    }

    function State(): T
      reads this
    {
      history.present
    }

    method SetState(v: T)
      requires Valid()
      modifies this
      ensures Valid() && undoRedoFlag == old(undoRedoFlag)
      ensures history == Updated(old(history), old(undoRedoFlag), v, maxHistorySize)
    {
      history := Updated(history, undoRedoFlag, v, maxHistorySize);
    }

    /** Raises the flag only when there was something to undo. */
    method Undo()
      requires Valid()
      modifies this
      ensures Valid() && history == Undone(old(history))
      ensures undoRedoFlag == (old(undoRedoFlag) || CanUndo(old(history)))
    {
      if CanUndo(history) {
        undoRedoFlag := true;
      }
      history := Undone(history);
    }

    /** Raises the flag only when there was something to redo. */
    method Redo()
      requires Valid()
      modifies this
      ensures Valid() && history == Redone(old(history))
      ensures undoRedoFlag == (old(undoRedoFlag) || CanRedo(old(history)))
    {
      if CanRedo(history) {
        undoRedoFlag := true;
      }
      history := Redone(history);
    }

    /** The zero-delay timer started by undo or redo. */
    method FlagTimerFires()
      modifies this
      ensures !undoRedoFlag && history == old(history)
    {
      undoRedoFlag := false;
    }

    method Reset(newInitialState: Option<T>)
      requires Valid()
      modifies this
      ensures Valid() && undoRedoFlag == old(undoRedoFlag)
      ensures history == ResetTo(initialState, newInitialState)
    {
      history := ResetTo(initialState, newInitialState);
    }

    method ClearHistory()
      requires Valid()
      modifies this
      ensures Valid() && undoRedoFlag == old(undoRedoFlag)
      ensures history == Cleared(old(history))
    {
      history := Cleared(history);
    }
  }
}
