/** The main shape store (frontend/context/CanvasContext.tsx) as the object the
    editor holds: one field per piece of state, one method per exported
    operation. Each method is proved to move the store exactly as the matching
    transition of CanvasModel does, and to keep the zoom scale in range. */
module CanvasStore {
  import opened ShapeTypes
  import opened ShapeList
  import opened Timelines
  import CanvasModel
  import BuiltinTemplates

  /** The in-place exchange of two neighbouring entries that `reorderShape`'s
      two splices amount to. */
  method SwapAdjacent(a: array<Shape>, i: int)
    requires 0 <= i < a.Length - 1
    modifies a
    ensures a[..] == CanvasModel.Swap(old(a[..]), i, i + 1)
  {
    a[i], a[i + 1] := a[i + 1], a[i];
  }

  /** The splice-out, splice-in of `reorderShape` on a copy of the list, carried
      out as the adjacent swap it amounts to. */
  method ReorderedCopy(shapes: seq<Shape>, shapeId: string, direction: CanvasModel.Direction) returns (r: seq<Shape>)
    ensures r == CanvasModel.Reordered(shapes, shapeId, direction)
  {
    CanvasModel.ReorderedIsSwap(shapes, shapeId, direction);
    var index := IndexOf(shapes, shapeId);
    if index == -1 {
      return shapes;
    }
    var a := new Shape[|shapes|](i requires 0 <= i < |shapes| => shapes[i]);
    assert a[..] == shapes;
    if direction == CanvasModel.Up && index < a.Length - 1 {
      SwapAdjacent(a, index);
    } else if direction == CanvasModel.Down && index > 0 {
      SwapAdjacent(a, index - 1);
    }
    r := a[..];
  }

  class Canvas {
    var shapes: seq<Shape>
    var lines: seq<Line>
    var trash: seq<Shape>
    var selectedShapeId: Option<string>
    var history: seq<seq<Shape>>
    var redoStack: seq<seq<Shape>>
    var mirrorDesign: seq<Shape>
    var scale: real
    var savedProjects: seq<CanvasModel.SavedProject>
    var currentProjectId: Option<string>
    const templates: seq<Template>

    /** The store's fields as one value. */
    function State(): CanvasModel.CanvasState
      reads this
    {
      CanvasModel.CanvasState(Timeline(shapes, history, redoStack), lines, trash, selectedShapeId,
                              mirrorDesign, scale, savedProjects, currentProjectId)
    }

    ghost predicate Valid()
      reads this
    {
      CanvasModel.ScaleInRange(scale)
    }

    constructor()
      ensures Valid()
      ensures State() == CanvasModel.Initial
      ensures templates == BuiltinTemplates.InitialTemplates
    {
      shapes, lines, trash, selectedShapeId := [], [], [], None;
      history, redoStack, mirrorDesign := [], [], [];
      scale := 1.0;
      savedProjects, currentProjectId := [], None;
      templates := BuiltinTemplates.InitialTemplates;
    }

    method SaveToHistory(newShapes: seq<Shape>)
      requires Valid()
      modifies this
      ensures Valid()
      ensures State() == CanvasModel.SaveToHistory(old(State()), newShapes)
    {
      history := history + [shapes];
      redoStack := [];
      shapes := newShapes;
    }

    method AddShape(shape: Shape)
      requires Valid()
      modifies this
      ensures Valid()
      ensures State() == CanvasModel.AddShape(old(State()), shape)
    {
      SaveToHistory(shapes + [shape]);
    }

    method AddLine(line: Line)
      requires Valid()
      modifies this
      ensures Valid()
      ensures State() == CanvasModel.AddLine(old(State()), line)
    {
      lines := lines + [line];
    }

    /** newId stands for the UUID the source generates. */
    method AddTextShape(newId: string)
      requires Valid()
      modifies this
      ensures Valid()
      ensures State() == CanvasModel.AddTextShape(old(State()), newId)
    {
      var newShape := CanvasModel.TextShape(newId);
      SaveToHistory(shapes + [newShape]);
    }

    method Undo()
      requires Valid()
      modifies this
      ensures Valid()
      ensures State() == CanvasModel.Undo(old(State()))
    {
      if |history| == 0 {
        return;
      }
      var previous := history[|history| - 1];
      history := history[..|history| - 1];
      redoStack := redoStack + [shapes];
      shapes := previous;
    }

    method Redo()
      requires Valid()
      modifies this
      ensures Valid()
      ensures State() == CanvasModel.Redo(old(State()))
    {
      if |redoStack| == 0 {
        return;
      }
      var next := redoStack[|redoStack| - 1];
      redoStack := redoStack[..|redoStack| - 1];
      history := history + [shapes];
      shapes := next;
    }

    method DeleteShape(id: string)
      requires Valid()
      modifies this
      ensures Valid()
      ensures State() == CanvasModel.DeleteShape(old(State()), id)
    {
      shapes := WithoutId(shapes, id);
    }

    method DeleteToTrash(id: string)
      requires Valid()
      modifies this
      ensures Valid()
      ensures State() == CanvasModel.DeleteToTrash(old(State()), id)
    {
      var shape := FindById(shapes, id);
      if shape.Some? {
        trash := trash + [shape.value];
      }
      shapes := WithoutId(shapes, id);
    }

    /** The source's `deleteShapeById` has the same code as `deleteToTrash`. */
    method DeleteShapeById(id: string)
      requires Valid()
      modifies this
      ensures Valid()
      ensures State() == CanvasModel.DeleteToTrash(old(State()), id)
    {
      var shapeToDelete := FindById(shapes, id);
      if shapeToDelete.Some? {
        trash := trash + [shapeToDelete.value];
      }
      shapes := WithoutId(shapes, id);
    }

    method RestoreFromTrash(id: string)
      requires Valid()
      modifies this
      ensures Valid()
      ensures State() == CanvasModel.RestoreFromTrash(old(State()), id)
    {
      var shapeToRestore := FindById(trash, id);
      if shapeToRestore.Some? {
        shapes := shapes + [shapeToRestore.value];
      }
      trash := WithoutId(trash, id);
    }

    method UpdateShape(id: string, newProps: ShapeUpdate)
      requires Valid()
      modifies this
      ensures Valid()
      ensures State() == CanvasModel.UpdateShape(old(State()), id, newProps)
    {
      shapes := MapById(shapes, id, sh => CanvasModel.PatchShape(sh, newProps));
    }

    method UpdateShapeStyle(id: string, newStyle: Style)
      requires Valid()
      modifies this
      ensures Valid()
      ensures State() == CanvasModel.UpdateShapeStyle(old(State()), id, newStyle)
    {
      shapes := MapById(shapes, id, (sh: Shape) => sh.(style := MergeStyle(sh.style, newStyle)));
    }

    method SelectShape(id: Option<string>)
      requires Valid()
      modifies this
      ensures Valid()
      ensures State() == CanvasModel.SelectShape(old(State()), id)
    {
      selectedShapeId := id;
    }

    method SaveToMirror()
      requires Valid()
      modifies this
      ensures Valid()
      ensures State() == CanvasModel.SaveToMirror(old(State()))
    {
      mirrorDesign := shapes;
    }

    /** shapeIds and lineIds stand for the UUIDs generated for the clones. */
    method LoadTemplate(t: Template, shapeIds: seq<string>, lineIds: seq<string>)
      requires Valid()
      requires |shapeIds| == |t.shapes| && |lineIds| == |t.lines|
      modifies this
      ensures Valid()
      ensures State() == CanvasModel.LoadTemplate(old(State()), t, shapeIds, lineIds)
    {
      var clonedShapes := CanvasModel.CloneShapes(t.shapes, shapeIds);
      var idMap := CanvasModel.IdMap(t.shapes, shapeIds);
      lines := CanvasModel.CloneLines(t.lines, lineIds, idMap);
      SaveToHistory(clonedShapes);
    }

    /** `reorderShape(id, direction)`: the list becomes the reordered copy. */
    method ReorderShape(shapeId: string, direction: CanvasModel.Direction)
      requires Valid()
      modifies this
      ensures Valid()
      ensures State() == CanvasModel.ReorderShape(old(State()), shapeId, direction)
    {
      var next := ReorderedCopy(shapes, shapeId, direction);
      shapes := next;
    }

    method ToggleShapeVisibility(shapeId: string)
      requires Valid()
      modifies this
      ensures Valid()
      ensures State() == CanvasModel.ToggleShapeVisibility(old(State()), shapeId)
    {
      shapes := MapById(shapes, shapeId, CanvasModel.ToggleVisible);
    }

    method ToggleShapeLock(shapeId: string)
      requires Valid()
      modifies this
      ensures Valid()
      ensures State() == CanvasModel.ToggleShapeLock(old(State()), shapeId)
    {
      shapes := MapById(shapes, shapeId, CanvasModel.ToggleLocked);
    }

    method ZoomIn()
      requires Valid()
      modifies this
      ensures Valid()
      ensures State() == CanvasModel.ZoomIn(old(State()))
    {
      var next := scale + CanvasModel.ZoomStep;
      scale := if next < CanvasModel.MaxScale then next else CanvasModel.MaxScale;
    }

    method ZoomOut()
      requires Valid()
      modifies this
      ensures Valid()
      ensures State() == CanvasModel.ZoomOut(old(State()))
    {
      var next := scale - CanvasModel.ZoomStep;
      scale := if next > CanvasModel.MinScale then next else CanvasModel.MinScale;
    }

    /** id and date stand for the generated UUID and the current time. */
    method SaveProject(name: Option<string>, id: string, date: string)
      requires Valid()
      modifies this
      ensures Valid()
      ensures State() == CanvasModel.SaveProject(old(State()), name, id, date)
    {
      var projectName := CanvasModel.ProjectName(name, |savedProjects|);
      var newProject := CanvasModel.SavedProject(id, projectName, shapes, date);
      savedProjects := [newProject] + savedProjects;
      currentProjectId := Some(id);
    }
  }
}
