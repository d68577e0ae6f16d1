/** The older shape store (frontend/app/context/CanvasContext.tsx): the same
    undo/redo mechanics as the main store, a separate `trashedShapes` list, and a
    restore that takes the shape itself rather than an id. */
module AppCanvasModel {
  import opened ShapeTypes
  import opened ShapeList
  import opened Timelines

  datatype AppState = AppState(timeline: Timeline, trashedShapes: seq<Shape>, selectedShapeId: Option<string>)

  const Initial := AppState(Timeline([], [], []), [], None)

  /** The keys of the value the older store's provider hands to `useCanvas()`. */
  const ContextKeys: set<string> := {
    "shapes", "setShapes", "trashedShapes", "setTrashedShapes", "deleteToTrash", "restoreShape",
    "selectedShapeId", "setSelectedShapeId", "undo", "redo", "saveToHistory", "deleteShapeById"
  }

  function SaveToHistory(st: AppState, newShapes: seq<Shape>): AppState {
    st.(timeline := Commit(st.timeline, newShapes))
  }

  function Undo(st: AppState): AppState {
    st.(timeline := Timelines.Undo(st.timeline))
  }

  function Redo(st: AppState): AppState {
    st.(timeline := Timelines.Redo(st.timeline))
  }

  /** `deleteShapeById(id)`: permanent removal of every shape with the id. */
  function DeleteShapeById(st: AppState, id: string): AppState {
    st.(timeline := st.timeline.(shapes := WithoutId(st.timeline.shapes, id)))
  }

  /** `deleteToTrash(id)`: only when some shape has the id, the first one found
      is appended to the trash and every shape with the id leaves the list. */
  function DeleteToTrash(st: AppState, id: string): AppState {
    var shape := FindById(st.timeline.shapes, id);
    if shape.Some? then
      st.(timeline := st.timeline.(shapes := WithoutId(st.timeline.shapes, id)),
          trashedShapes := st.trashedShapes + [shape.value])
    else st
  }

  /** `restoreShape(shape)`: the given shape is appended unconditionally and every
      trashed entry with its id is dropped. */
  function RestoreShape(st: AppState, shape: Shape): AppState {
    st.(timeline := st.timeline.(shapes := st.timeline.shapes + [shape]),
        trashedShapes := WithoutId(st.trashedShapes, shape.id))
  }

  /** saveToHistory pushes the live list, clears the redo stack and installs the
      new list; undo then redo restores all three fields, and so does redo then undo. */
  lemma HistoryLaws(st: AppState, newShapes: seq<Shape>)
    ensures var r := SaveToHistory(st, newShapes);
      && r.timeline.shapes == newShapes
      && r.timeline.history == st.timeline.history + [st.timeline.shapes]
      && r.timeline.redoStack == []
      && r.trashedShapes == st.trashedShapes
    ensures |st.timeline.history| == 0 ==> Undo(st) == st
    ensures |st.timeline.redoStack| == 0 ==> Redo(st) == st
    ensures |st.timeline.history| > 0 ==> Redo(Undo(st)) == st
    ensures |st.timeline.redoStack| > 0 ==> Undo(Redo(st)) == st
  {
    UndoRedoInverse(st.timeline);
  }

  /** No trash operation touches history or the redo stack; permanent deletion
      leaves the trash alone; deleting an unknown id changes nothing. */
  lemma TrashFrame(st: AppState, id: string, shape: Shape)
    ensures DeleteShapeById(st, id).timeline.history == st.timeline.history
    ensures DeleteShapeById(st, id).timeline.redoStack == st.timeline.redoStack
    ensures DeleteShapeById(st, id).trashedShapes == st.trashedShapes
    ensures DeleteToTrash(st, id).timeline.history == st.timeline.history
    ensures DeleteToTrash(st, id).timeline.redoStack == st.timeline.redoStack
    ensures RestoreShape(st, shape).timeline.history == st.timeline.history
    ensures RestoreShape(st, shape).timeline.redoStack == st.timeline.redoStack
    ensures !HasId(st.timeline.shapes, id) ==> DeleteToTrash(st, id) == st && DeleteShapeById(st, id) == st
  {
  }

  /** A trashed shape is the first one with the id, and afterwards no shape with
      the id is left in the list. */
  lemma DeleteToTrashMoves(st: AppState, id: string)
    requires HasId(st.timeline.shapes, id)
    ensures var r := DeleteToTrash(st, id);
      && |r.trashedShapes| == |st.trashedShapes| + 1
      && r.trashedShapes[..|st.trashedShapes|] == st.trashedShapes
      && r.trashedShapes[|st.trashedShapes|] == st.timeline.shapes[IndexOf(st.timeline.shapes, id)]
      && !HasId(r.timeline.shapes, id)
  {
    var r := DeleteToTrash(st, id);
    assert forall k :: 0 <= k < |r.timeline.shapes| ==> r.timeline.shapes[k].id != id;
  }

  /** Restoring a shape that was never trashed still adds it to the list, and
      leaves the trash as it was. */
  lemma RestoreUntrashed(st: AppState, shape: Shape)
    requires !HasId(st.trashedShapes, shape.id)
    ensures RestoreShape(st, shape).timeline.shapes == st.timeline.shapes + [shape]
    ensures RestoreShape(st, shape).trashedShapes == st.trashedShapes
    ensures |RestoreShape(st, shape).timeline.shapes| == |st.timeline.shapes| + 1
  {
  }

  /** Trashing the only shape with its id and restoring it moves it to the end of
      the list, keeps the multiset of shapes, and empties the trash of it again. */
  lemma TrashRestoreRoundTrip(st: AppState, i: int)
    requires 0 <= i < |st.timeline.shapes|
    requires forall j :: 0 <= j < |st.timeline.shapes| && j != i ==> st.timeline.shapes[j].id != st.timeline.shapes[i].id
    requires !HasId(st.trashedShapes, st.timeline.shapes[i].id)
    ensures var s := st.timeline.shapes;
            var r := RestoreShape(DeleteToTrash(st, s[i].id), s[i]);
      && r.timeline.shapes == s[..i] + s[i + 1..] + [s[i]]
      && multiset(r.timeline.shapes) == multiset(s)
      && r.trashedShapes == st.trashedShapes
      && r.timeline.history == st.timeline.history
  {
    var s := st.timeline.shapes;
    var id := s[i].id;
    FindUnique(s, i);
    WithoutUniqueId(s, i);
    var d := DeleteToTrash(st, id);
    assert d.trashedShapes == st.trashedShapes + [s[i]];
    WithoutIdAppend(st.trashedShapes, [s[i]], id);
    assert WithoutId([s[i]], id) == [];
    assert s == s[..i] + [s[i]] + s[i + 1..];
  }
}

/** The older store as the object its screens hold; each method is proved to
    move the store as the matching AppCanvasModel transition does. */
module AppCanvasStore {
  import opened ShapeTypes
  import opened ShapeList
  import opened Timelines
  import AppCanvasModel

  class Store {
    var shapes: seq<Shape>
    var trashedShapes: seq<Shape>
    var selectedShapeId: Option<string>
    var history: seq<seq<Shape>>
    var redoStack: seq<seq<Shape>>

    function State(): AppCanvasModel.AppState
      reads this
    {
      AppCanvasModel.AppState(Timeline(shapes, history, redoStack), trashedShapes, selectedShapeId)
    }

    constructor()
      ensures State() == AppCanvasModel.Initial
    {
      shapes, trashedShapes, selectedShapeId := [], [], None;
      history, redoStack := [], [];
    }

    method SaveToHistory(newShapes: seq<Shape>)
      modifies this
      ensures State() == AppCanvasModel.SaveToHistory(old(State()), newShapes)
    {
      history := history + [shapes];
      redoStack := [];
      shapes := newShapes;
    }

    method Undo()
      modifies this
      ensures State() == AppCanvasModel.Undo(old(State()))
    {
      if |history| == 0 {
        return;
      }
      var prev := history[|history| - 1];
      history := history[..|history| - 1];
      redoStack := redoStack + [shapes];
      shapes := prev;
    }

    method Redo()
      modifies this
      ensures State() == AppCanvasModel.Redo(old(State()))
    {
      if |redoStack| == 0 {
        return;
      }
      var next := redoStack[|redoStack| - 1];
      redoStack := redoStack[..|redoStack| - 1];
      history := history + [shapes];
      shapes := next;
    }

    method DeleteShapeById(id: string)
      modifies this
      ensures State() == AppCanvasModel.DeleteShapeById(old(State()), id)
    {
      shapes := WithoutId(shapes, id);
    }

    method DeleteToTrash(id: string)
      modifies this
      ensures State() == AppCanvasModel.DeleteToTrash(old(State()), id)
    {
      var shape := FindById(shapes, id);
      if shape.Some? {
        trashedShapes := trashedShapes + [shape.value];
        shapes := WithoutId(shapes, id);
      }
    }

    method RestoreShape(shape: Shape)
      modifies this
      ensures State() == AppCanvasModel.RestoreShape(old(State()), shape)
    {
      shapes := shapes + [shape];
      trashedShapes := WithoutId(trashedShapes, shape.id);
    }
  }
}
