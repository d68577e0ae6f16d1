/** The undo/redo mechanics both canvas stores share: the live shape list,
    the `history` stack of earlier lists and the `redoStack` of undone ones.
    Each snapshot is a whole list (a value), never a delta. */
module Timelines {
  import opened ShapeTypes

  datatype Timeline = Timeline(shapes: seq<Shape>, history: seq<seq<Shape>>, redoStack: seq<seq<Shape>>)

  /** `saveToHistory(newShapes)`: push the current list, clear the redo stack, install the new list. */
  function Commit(t: Timeline, newShapes: seq<Shape>): Timeline {
    Timeline(newShapes, t.history + [t.shapes], [])
  }

  /** `undo()`: no-op on an empty history; otherwise pop the last snapshot into
      `shapes` and push the current list onto the redo stack. */
  function Undo(t: Timeline): Timeline {
    if |t.history| == 0 then t
    else Timeline(t.history[|t.history| - 1], t.history[..|t.history| - 1], t.redoStack + [t.shapes])
  }

  /** `redo()`: the mirror image of `undo()` with the two stacks exchanged. */
  function Redo(t: Timeline): Timeline {
    if |t.redoStack| == 0 then t
    else Timeline(t.redoStack[|t.redoStack| - 1], t.history + [t.shapes], t.redoStack[..|t.redoStack| - 1])
  }

  /** Undo followed by redo restores all three fields; so does redo followed by undo. */
  lemma UndoRedoInverse(t: Timeline)
    ensures |t.history| > 0 ==> Redo(Undo(t)) == t
    ensures |t.redoStack| > 0 ==> Undo(Redo(t)) == t
  {
    if |t.history| > 0 {
      assert t.history[..|t.history| - 1] + [t.history[|t.history| - 1]] == t.history;
    }
    if |t.redoStack| > 0 {
      assert t.redoStack[..|t.redoStack| - 1] + [t.redoStack[|t.redoStack| - 1]] == t.redoStack;
    }
  }

  /** One undo right after a commit brings back the list and the history of
      before the commit; the committed list is then the only thing to redo. */
  lemma UndoAfterCommit(t: Timeline, newShapes: seq<Shape>)
    ensures Undo(Commit(t, newShapes)) == Timeline(t.shapes, t.history, [newShapes])
    ensures Redo(Commit(t, newShapes)) == Commit(t, newShapes)
  {
    assert (t.history + [t.shapes])[..|t.history|] == t.history;
  }

  /** n successive undos. */
  function UndoN(t: Timeline, n: nat): Timeline {
    if n == 0 then t else Undo(UndoN(t, n - 1))
  }

  /** n successive redos. */
  function RedoN(t: Timeline, n: nat): Timeline
    decreases n
  {
    if n == 0 then t else RedoN(Redo(t), n - 1)
  }

  /** The commits of a sequence of lists, one after another. */
  function CommitAll(t: Timeline, lists: seq<seq<Shape>>): Timeline
    decreases |lists|
  {
    if |lists| == 0 then t else CommitAll(Commit(t, lists[0]), lists[1..])
  }

  /** While the history lasts, every undo moves exactly one snapshot from one stack to the other. */
  lemma {:induction false} UndoNDepth(t: Timeline, n: nat)
    requires n <= |t.history|
    ensures |UndoN(t, n).history| == |t.history| - n
    ensures |UndoN(t, n).redoStack| == |t.redoStack| + n
  {
    if n > 0 {
      UndoNDepth(t, n - 1);
    }
  }

  /** Once the history is exhausted, undo is a no-op. */
  lemma {:induction false} UndoNExhausted(t: Timeline, n: nat)
    requires n >= |t.history|
    ensures UndoN(t, n) == UndoN(t, |t.history|)
    ensures |UndoN(t, n).history| == 0
  {
    if n == |t.history| {
      UndoNDepth(t, n);
    } else {
      UndoNExhausted(t, n - 1);
    }
  }

  /** n redos undo n undos, as long as the history had n snapshots to give. */
  lemma {:induction false} RedoNAfterUndoN(t: Timeline, n: nat)
    requires n <= |t.history|
    ensures RedoN(UndoN(t, n), n) == t
  {
    if n > 0 {
      var u := UndoN(t, n - 1);
      UndoNDepth(t, n - 1);
      UndoRedoInverse(u);
      assert Redo(UndoN(t, n)) == u;
      RedoNAfterUndoN(t, n - 1);
    }
  }

  /** Committing k lists deepens the history by k, and a non-empty run of commits leaves the last list live and nothing to redo. */
  lemma {:induction false} CommitAllDepth(t: Timeline, lists: seq<seq<Shape>>)
    ensures |CommitAll(t, lists).history| == |t.history| + |lists|
    ensures |lists| > 0 ==> CommitAll(t, lists).shapes == lists[|lists| - 1] && CommitAll(t, lists).redoStack == []
    decreases |lists|
  {
    if |lists| > 0 {
      CommitAllDepth(Commit(t, lists[0]), lists[1..]);
    }
  }

  /** As many undos as commits bring the shape list and the history back to where they were. */
  lemma {:induction false} UndoAllCommits(t: Timeline, lists: seq<seq<Shape>>)
    ensures UndoN(CommitAll(t, lists), |lists|).shapes == t.shapes
    ensures UndoN(CommitAll(t, lists), |lists|).history == t.history
    decreases |lists|
  {
    if |lists| > 0 {
      var t1 := Commit(t, lists[0]);
      UndoAllCommits(t1, lists[1..]);
      assert (t.history + [t.shapes])[..|t.history|] == t.history;
    }
  }

  /** The undo/redo round trip over any run of commits: undoing them all restores
      the list and the history from before the run, and redoing as many times
      restores the state after the run exactly. */
  lemma UndoRedoRoundTrip(t: Timeline, lists: seq<seq<Shape>>)
    ensures UndoN(CommitAll(t, lists), |lists|).shapes == t.shapes
    ensures UndoN(CommitAll(t, lists), |lists|).history == t.history
    ensures RedoN(UndoN(CommitAll(t, lists), |lists|), |lists|) == CommitAll(t, lists)
  {
    UndoAllCommits(t, lists);
    CommitAllDepth(t, lists);
    RedoNAfterUndoN(CommitAll(t, lists), |lists|);
  }
}
