/** The main shape store of the editor (frontend/context/CanvasContext.tsx) as
    a state value and one total transition function per exported operation.
    Fresh ids and dates, which the source draws from a UUID generator and the
    clock, are parameters. */
module CanvasModel {
  import opened ShapeTypes
  import opened ShapeList
  import opened Timelines

  datatype Direction = Up | Down

  datatype SavedProject = SavedProject(id: string, name: string, shapes: seq<Shape>, date: string)

  datatype CanvasState = CanvasState(
    timeline: Timeline,
    lines: seq<Line>,
    trash: seq<Shape>,
    selectedShapeId: Option<string>,
    mirrorDesign: seq<Shape>,
    scale: real,
    savedProjects: seq<SavedProject>,
    currentProjectId: Option<string>)

  const Initial := CanvasState(Timeline([], [], []), [], [], None, [], 1.0, [], None)

  const MinScale: real := 0.5
  const MaxScale: real := 2.0
  const ZoomStep: real := 0.1

  ghost predicate ScaleInRange(scale: real) {
    MinScale <= scale <= MaxScale
  }

  function SetShapes(st: CanvasState, s: seq<Shape>): CanvasState {
    st.(timeline := st.timeline.(shapes := s))
  }

  // ---------------------------------------------------------------- history

  /** `saveToHistory(newShapes)`. */
  function SaveToHistory(st: CanvasState, newShapes: seq<Shape>): CanvasState {
    st.(timeline := Commit(st.timeline, newShapes))
  }

  /** `addShape(shape)`: the shape goes last (on top), through `saveToHistory`. */
  function AddShape(st: CanvasState, shape: Shape): CanvasState {
    SaveToHistory(st, st.timeline.shapes + [shape])
  }

  /** `addLine(line)`: appended as given, with no check of its endpoints and no history entry. */
  function AddLine(st: CanvasState, line: Line): CanvasState {
    st.(lines := st.lines + [line])
  }

  function Undo(st: CanvasState): CanvasState {
    st.(timeline := Timelines.Undo(st.timeline))
  }

  function Redo(st: CanvasState): CanvasState {
    st.(timeline := Timelines.Redo(st.timeline))
  }

  /** The shape `addTextShape` builds around a fresh id. */
  function TextShape(newId: string): Shape {
    Shape(newId, Text, Position(100.0, 100.0),
          EmptyStyle.(width := Some(150.0), height := Some(60.0), backgroundColor := Some("transparent"),
                      borderColor := Some("#000"), borderWidth := Some(1.0)),
          None, None, None, None, Some("Edit Me"), Some(18.0), Some("#000000"))
  }

  /** `addTextShape()`. */
  function AddTextShape(st: CanvasState, newId: string): CanvasState {
    SaveToHistory(st, st.timeline.shapes + [TextShape(newId)])
  }

  /** addShape and addTextShape append the new shape as the last element, push the
      previous list onto the history, empty the redo stack and touch nothing else.
      The text shape is an "Edit Me" text box at (100, 100), 150 by 60, with
      font size 18 in black. */
  lemma AddShapeEffect(st: CanvasState, shape: Shape, newId: string)
    ensures var r := AddShape(st, shape);
      && r.timeline.shapes == st.timeline.shapes + [shape]
      && r.timeline.shapes[|r.timeline.shapes| - 1] == shape
      && r.timeline.history == st.timeline.history + [st.timeline.shapes]
      && r.timeline.redoStack == []
      && r.(timeline := st.timeline) == st
    ensures var r := AddTextShape(st, newId);
      && r.timeline.shapes == st.timeline.shapes + [TextShape(newId)]
      && (var t := r.timeline.shapes[|r.timeline.shapes| - 1];
          && t.id == newId && t.kind == Text && t.position == Position(100.0, 100.0)
          && t.style.width == Some(150.0) && t.style.height == Some(60.0)
          && t.text == Some("Edit Me") && t.fontSize == Some(18.0) && t.fontColor == Some("#000000")
          && t.isVisible.None? && t.isLocked.None?)
      && r.timeline.history == st.timeline.history + [st.timeline.shapes]
      && r.timeline.redoStack == []
      && r.(timeline := st.timeline) == st
    ensures Undo(AddShape(st, shape)).timeline.shapes == st.timeline.shapes
  {
    UndoAfterCommit(st.timeline, st.timeline.shapes + [shape]);
  }

  // ------------------------------------------------------------ delete, trash

  /** `deleteShape(id)`: permanent removal, trash untouched. */
  function DeleteShape(st: CanvasState, id: string): CanvasState {
    SetShapes(st, WithoutId(st.timeline.shapes, id))
  }

  /** `deleteToTrash(id)` (and `deleteShapeById(id)`, whose code is the same):
      every shape with the id leaves the list, the first of them is appended to the trash. */
  function DeleteToTrash(st: CanvasState, id: string): CanvasState {
    st.(timeline := st.timeline.(shapes := WithoutId(st.timeline.shapes, id)),
        trash := st.trash + Found(FindById(st.timeline.shapes, id)))
  }

  /** `restoreFromTrash(id)`: every trash entry with the id leaves the trash, the
      first of them is appended to the shape list. */
  function RestoreFromTrash(st: CanvasState, id: string): CanvasState {
    st.(timeline := st.timeline.(shapes := st.timeline.shapes + Found(FindById(st.trash, id))),
        trash := WithoutId(st.trash, id))
  }

  /** No delete or restore touches the history, and an unknown id changes nothing. */
  lemma TrashFrame(st: CanvasState, id: string)
    ensures DeleteShape(st, id).timeline.history == st.timeline.history
    ensures DeleteToTrash(st, id).timeline.history == st.timeline.history
    ensures RestoreFromTrash(st, id).timeline.history == st.timeline.history
    ensures DeleteToTrash(st, id).timeline.redoStack == st.timeline.redoStack
    ensures RestoreFromTrash(st, id).timeline.redoStack == st.timeline.redoStack
    ensures DeleteShape(st, id).trash == st.trash
    ensures !HasId(st.timeline.shapes, id) ==> DeleteToTrash(st, id) == st && DeleteShape(st, id) == st
    ensures !HasId(st.trash, id) ==> RestoreFromTrash(st, id) == st
  {
  }

  /** Deleting a shape moves it to the end of the trash, and no shape with its id stays live. */
  lemma DeleteToTrashMoves(st: CanvasState, id: string)
    requires HasId(st.timeline.shapes, id)
    ensures var r := DeleteToTrash(st, id);
      && !HasId(r.timeline.shapes, id)
      && |r.trash| == |st.trash| + 1
      && r.trash[|st.trash|] == FindById(st.timeline.shapes, id).value
  {
    var r := DeleteToTrash(st, id);
    assert forall k :: 0 <= k < |r.timeline.shapes| ==> r.timeline.shapes[k].id != id;
  }

  /** Trash round trip: trashing a uniquely-id'd shape and restoring it leaves the
      same multiset of shapes, with that shape now last, and the trash as it was. */
  lemma TrashRestoreRoundTrip(st: CanvasState, i: int)
    requires 0 <= i < |st.timeline.shapes|
    requires forall j :: 0 <= j < |st.timeline.shapes| && j != i ==> st.timeline.shapes[j].id != st.timeline.shapes[i].id
    requires !HasId(st.trash, st.timeline.shapes[i].id)
    ensures var s := st.timeline.shapes;
            var r := RestoreFromTrash(DeleteToTrash(st, s[i].id), s[i].id);
      && r.timeline.shapes == s[..i] + s[i + 1..] + [s[i]]
      && multiset(r.timeline.shapes) == multiset(s)
      && r.trash == st.trash
      && r.timeline.history == st.timeline.history
      && r.timeline.redoStack == st.timeline.redoStack
  {
    var s := st.timeline.shapes;
    var id := s[i].id;
    WithoutUniqueId(s, i);
    FindUnique(s, i);
    var mid := DeleteToTrash(st, id);
    assert mid.trash == st.trash + [s[i]];
    FindByIdAppend(st.trash, [s[i]], id);
    FindUnique([s[i]], 0);
    WithoutIdAppend(st.trash, [s[i]], id);
    assert WithoutId([s[i]], id) == [];
    assert s == s[..i] + [s[i]] + s[i + 1..];
    calc {
      multiset(s[..i] + s[i + 1..] + [s[i]]);
      multiset(s[..i]) + multiset(s[i + 1..]) + multiset([s[i]]);
      multiset(s[..i] + [s[i]] + s[i + 1..]);
    }
  }

  // ----------------------------------------------------------------- updates

  /** One shape under `updateShape`'s merge: position and style merged, text, uri
      and isLocked replaced only when supplied; id, type, isVisible and color
      never change, even when the update supplies them, and the undeclared
      font keys are carried along by the spread. */
  function PatchShape(sh: Shape, u: ShapeUpdate): (r: Shape)
    ensures r.id == sh.id && r.kind == sh.kind && r.isVisible == sh.isVisible && r.color == sh.color
    ensures r.fontSize == sh.fontSize && r.fontColor == sh.fontColor
  {
    sh.(position := if u.position.Some? then u.position.value else sh.position,
        style := if u.style.Some? then MergeStyle(sh.style, u.style.value) else sh.style,
        text := Pick(sh.text, u.text),
        uri := Pick(sh.uri, u.uri),
        isLocked := Pick(sh.isLocked, u.isLocked))
  }

  /** `updateShape(id, newProps)`. The position patch is a whole `Position`
      (both keys required by its type), so the spread replaces both coordinates. */
  function UpdateShape(st: CanvasState, id: string, u: ShapeUpdate): CanvasState {
    SetShapes(st, MapById(st.timeline.shapes, id, sh => PatchShape(sh, u)))
  }

  /** `updateShapeStyle(id, newStyle)`: merges the style only. */
  function UpdateShapeStyle(st: CanvasState, id: string, patch: Style): CanvasState {
    SetShapes(st, MapById(st.timeline.shapes, id, (sh: Shape) => sh.(style := MergeStyle(sh.style, patch))))
  }

  /** updateShape changes only the shapes with the id, key by key as PatchShape
      says, keeps the list's length and ids, and records no history. */
  lemma UpdateShapeEffect(st: CanvasState, id: string, u: ShapeUpdate)
    ensures var s := st.timeline.shapes;
            var r := UpdateShape(st, id, u).timeline.shapes;
      && |r| == |s|
      && Ids(r) == Ids(s)
      && (forall i :: 0 <= i < |s| && s[i].id != id ==> r[i] == s[i])
      && (forall i :: 0 <= i < |s| && s[i].id == id ==>
            && r[i].position == (if u.position.Some? then u.position.value else s[i].position)
            && r[i].style == (if u.style.Some? then MergeStyle(s[i].style, u.style.value) else s[i].style)
            && r[i].text == (if u.text.Some? then u.text else s[i].text)
            && r[i].uri == (if u.uri.Some? then u.uri else s[i].uri)
            && r[i].isLocked == (if u.isLocked.Some? then u.isLocked else s[i].isLocked)
            && r[i].id == s[i].id && r[i].kind == s[i].kind
            && r[i].isVisible == s[i].isVisible && r[i].color == s[i].color
            && r[i].fontSize == s[i].fontSize && r[i].fontColor == s[i].fontColor)
    ensures UpdateShape(st, id, u).(timeline := st.timeline) == st
    ensures UpdateShape(st, id, u).timeline.history == st.timeline.history
  {
    MapByIdKeepsIds(st.timeline.shapes, id, sh => PatchShape(sh, u));
  }

  /** updateShapeStyle is updateShape with an update that carries only a style. */
  lemma UpdateShapeStyleIsStyleUpdate(st: CanvasState, id: string, patch: Style)
    ensures UpdateShapeStyle(st, id, patch) == UpdateShape(st, id, NoUpdate.(style := Some(patch)))
  {
    var a := UpdateShapeStyle(st, id, patch).timeline.shapes;
    var b := UpdateShape(st, id, NoUpdate.(style := Some(patch))).timeline.shapes;
    assert a == b;
  }

  /** Applying the same update twice is the same as applying it once. */
  lemma UpdateShapeIdempotent(st: CanvasState, id: string, u: ShapeUpdate)
    ensures UpdateShape(UpdateShape(st, id, u), id, u) == UpdateShape(st, id, u)
  {
    var s := st.timeline.shapes;
    var once := UpdateShape(st, id, u).timeline.shapes;
    var twice := UpdateShape(UpdateShape(st, id, u), id, u).timeline.shapes;
    forall i | 0 <= i < |s| ensures twice[i] == once[i] {
      if s[i].id == id {
        if u.style.Some? {
          MergeStyleLaws(s[i].style, u.style.value, u.style.value);
        }
      }
    }
    assert twice == once;
  }

  // ----------------------------------------------------------------- toggles

  /** Whether a shape is drawn: a missing flag counts as visible. */
  function Shown(sh: Shape): bool {
    sh.isVisible.GetOr(true)
  }

  /** Whether a shape is locked: a missing flag counts as unlocked. */
  function Locked(sh: Shape): bool {
    sh.isLocked.GetOr(false)
  }

  function ToggleVisible(sh: Shape): (r: Shape)
    ensures Shown(r) == !Shown(sh) && r.isVisible.Some?
    ensures r.(isVisible := sh.isVisible) == sh
  {
    sh.(isVisible := Some(!Shown(sh)))
  }

  function ToggleLocked(sh: Shape): (r: Shape)
    ensures Locked(r) == !Locked(sh) && r.isLocked.Some?
    ensures r.(isLocked := sh.isLocked) == sh
  {
    sh.(isLocked := Some(!Locked(sh)))
  }

  /** `toggleShapeVisibility(id)`. */
  function ToggleShapeVisibility(st: CanvasState, id: string): CanvasState {
    SetShapes(st, MapById(st.timeline.shapes, id, ToggleVisible))
  }

  /** `toggleShapeLock(id)`. */
  function ToggleShapeLock(st: CanvasState, id: string): CanvasState {
    SetShapes(st, MapById(st.timeline.shapes, id, ToggleLocked))
  }

  /** A toggle flips the effective flag of exactly the shapes with the id; toggling
      twice restores every shape's effective flag and leaves the flag explicit. */
  lemma TogglesFlip(st: CanvasState, id: string)
    ensures var s := st.timeline.shapes;
            var v := ToggleShapeVisibility(st, id).timeline.shapes;
            var l := ToggleShapeLock(st, id).timeline.shapes;
      && |v| == |s| && |l| == |s|
      && (forall i :: 0 <= i < |s| ==> Shown(v[i]) == (if s[i].id == id then !Shown(s[i]) else Shown(s[i])))
      && (forall i :: 0 <= i < |s| ==> Locked(l[i]) == (if s[i].id == id then !Locked(s[i]) else Locked(s[i])))
      && (forall i :: 0 <= i < |s| && s[i].id != id ==> v[i] == s[i] && l[i] == s[i])
    ensures var s := st.timeline.shapes;
            var v2 := ToggleShapeVisibility(ToggleShapeVisibility(st, id), id).timeline.shapes;
      && |v2| == |s|
      && forall i :: 0 <= i < |s| ==> v2[i] == if s[i].id == id then s[i].(isVisible := Some(Shown(s[i]))) else s[i]
  {
  }

  // ------------------------------------------------------------------ zoom

  function ZoomIn(st: CanvasState): CanvasState {
    st.(scale := if st.scale + ZoomStep < MaxScale then st.scale + ZoomStep else MaxScale)
  }

  function ZoomOut(st: CanvasState): CanvasState {
    st.(scale := if st.scale - ZoomStep > MinScale then st.scale - ZoomStep else MinScale)
  }

  /** Both zoom steps keep the scale in [0.5, 2]; away from the bounds one zoom out undoes one zoom in and vice versa. */
  lemma ZoomKeepsRange(st: CanvasState)
    requires ScaleInRange(st.scale)
    ensures ScaleInRange(ZoomIn(st).scale) && ScaleInRange(ZoomOut(st).scale)
    ensures ZoomIn(st).scale >= st.scale && ZoomOut(st).scale <= st.scale
    ensures st.scale + ZoomStep <= MaxScale ==> ZoomOut(ZoomIn(st)) == st
    ensures st.scale - ZoomStep >= MinScale ==> ZoomIn(ZoomOut(st)) == st
  {
  }

  // ----------------------------------------------------------------- reorder

  function Insert(s: seq<Shape>, k: int, x: Shape): (r: seq<Shape>)
    requires 0 <= k <= |s|
  {
    s[..k] + [x] + s[k..]
  }

  /** `reorderShape(id, direction)` as the source writes it: splice the shape out
      of a copy, then splice it back one place later ('up'), one place earlier
      ('down'), or where it was when the move is impossible. */
  function Reordered(s: seq<Shape>, id: string, dir: Direction): seq<Shape> {
    var index := IndexOf(s, id);
    if index == -1 then s
    else
      var shape := s[index];
      var rest := s[..index] + s[index + 1..];
      if dir == Up && index < |rest| then Insert(rest, index + 1, shape)
      else if dir == Down && index > 0 then Insert(rest, index - 1, shape)
      else Insert(rest, index, shape)
  }

  function ReorderShape(st: CanvasState, id: string, dir: Direction): CanvasState {
    SetShapes(st, Reordered(st.timeline.shapes, id, dir))
  }

  function Swap(s: seq<Shape>, a: int, b: int): (r: seq<Shape>)
    requires 0 <= a < |s| && 0 <= b < |s|
    ensures |r| == |s| && multiset(r) == multiset(s)
  {
    s[a := s[b]][b := s[a]]
  }

  lemma SpliceUp(s: seq<Shape>, i: int)
    requires 0 <= i < |s| - 1
    ensures Insert(s[..i] + s[i + 1..], i + 1, s[i]) == Swap(s, i, i + 1)
  {
    var rest := s[..i] + s[i + 1..];
    assert rest[..i + 1] == s[..i] + [s[i + 1]];
    assert rest[i + 1..] == s[i + 2..];
    var r := Insert(rest, i + 1, s[i]);
    assert r == s[..i] + [s[i + 1]] + [s[i]] + s[i + 2..];
    forall k | 0 <= k < |s| ensures r[k] == Swap(s, i, i + 1)[k] {
      if k < i { assert r[k] == s[..i][k]; }
      else if k > i + 1 { assert r[k] == s[i + 2..][k - i - 2]; }
    }
  }

  lemma SpliceDown(s: seq<Shape>, i: int)
    requires 0 < i < |s|
    ensures Insert(s[..i] + s[i + 1..], i - 1, s[i]) == Swap(s, i - 1, i)
  {
    var rest := s[..i] + s[i + 1..];
    assert rest[..i - 1] == s[..i - 1];
    assert rest[i - 1..] == [s[i - 1]] + s[i + 1..];
    var r := Insert(rest, i - 1, s[i]);
    assert r == s[..i - 1] + [s[i]] + [s[i - 1]] + s[i + 1..];
    forall k | 0 <= k < |s| ensures r[k] == Swap(s, i - 1, i)[k] {
      if k < i - 1 { assert r[k] == s[..i - 1][k]; }
      else if k > i { assert r[k] == s[i + 1..][k - i - 1]; }
    }
  }

  lemma SpliceBack(s: seq<Shape>, i: int)
    requires 0 <= i < |s|
    ensures Insert(s[..i] + s[i + 1..], i, s[i]) == s
  {
    var rest := s[..i] + s[i + 1..];
    assert rest[..i] == s[..i];
    assert rest[i..] == s[i + 1..];
    assert s[..i] + [s[i]] + s[i + 1..] == s;
  }

  lemma SwapTwice(s: seq<Shape>, a: int, b: int)
    requires 0 <= a < |s| && 0 <= b < |s|
    ensures Swap(Swap(s, a, b), a, b) == s
  {
    var t := Swap(s, a, b);
    var u := Swap(t, a, b);
    assert t[a] == s[b] && t[b] == s[a];
    forall k | 0 <= k < |s| ensures u[k] == s[k] {
      if k != a && k != b { assert u[k] == t[k] == s[k]; }
    }
  }

  /** The splices amount to an adjacent swap: 'up' swaps with the next shape unless
      the shape is last, 'down' with the previous one unless it is first, and
      otherwise (or for an unknown id) the list is unchanged. */
  lemma ReorderedIsSwap(s: seq<Shape>, id: string, dir: Direction)
    ensures var i := IndexOf(s, id);
      Reordered(s, id, dir) ==
        if i == -1 then s
        else if dir == Up && i < |s| - 1 then Swap(s, i, i + 1)
        else if dir == Down && i > 0 then Swap(s, i - 1, i)
        else s
  {
    var i := IndexOf(s, id);
    if i != -1 {
      if dir == Up && i < |s| - 1 {
        ReorderedMoves(s, id, dir, i + 1);
        SpliceUp(s, i);
      } else if dir == Down && i > 0 {
        ReorderedMoves(s, id, dir, i - 1);
        SpliceDown(s, i);
      } else {
        ReorderedMoves(s, id, dir, i);
        SpliceBack(s, i);
      }
    }
  }

  /** A found shape is spliced back in at the index the direction allows. */
  lemma ReorderedMoves(s: seq<Shape>, id: string, dir: Direction, k: int)
    requires IndexOf(s, id) != -1
    requires k == (var i := IndexOf(s, id);
                   if dir == Up && i < |s| - 1 then i + 1
                   else if dir == Down && i > 0 then i - 1
                   else i)
    ensures 0 <= k < |s|
    ensures var i := IndexOf(s, id); Reordered(s, id, dir) == Insert(s[..i] + s[i + 1..], k, s[i])
  {
  }

  /** Reordering always returns a permutation of the list. */
  lemma ReorderedPermutes(s: seq<Shape>, id: string, dir: Direction)
    ensures |Reordered(s, id, dir)| == |s|
    ensures multiset(Reordered(s, id, dir)) == multiset(s)
  {
    ReorderedIsSwap(s, id, dir);
  }

  /** With unique ids, moving a shape up and then down (from anywhere but the top) restores the list. */
  lemma ReorderUpThenDown(s: seq<Shape>, id: string)
    requires UniqueIds(s)
    requires 0 <= IndexOf(s, id) < |s| - 1
    ensures Reordered(Reordered(s, id, Up), id, Down) == s
  {
    var i := IndexOf(s, id);
    ReorderedIsSwap(s, id, Up);
    var t := Swap(s, i, i + 1);
    forall j | 0 <= j < |t| && j != i + 1 ensures t[j].id != t[i + 1].id {
      if j == i { assert t[j] == s[i + 1]; } else { assert t[j] == s[j]; }
    }
    FindUnique(t, i + 1);
    ReorderedIsSwap(t, id, Down);
    SwapTwice(s, i, i + 1);
  }

  /** With unique ids, moving a shape down and then up (from anywhere but the bottom) restores the list. */
  lemma ReorderDownThenUp(s: seq<Shape>, id: string)
    requires UniqueIds(s)
    requires IndexOf(s, id) > 0
    ensures Reordered(Reordered(s, id, Down), id, Up) == s
  {
    var i := IndexOf(s, id);
    ReorderedIsSwap(s, id, Down);
    var t := Swap(s, i - 1, i);
    forall j | 0 <= j < |t| && j != i - 1 ensures t[j].id != t[i - 1].id {
      if j == i { assert t[j] == s[i - 1]; } else { assert t[j] == s[j]; }
    }
    FindUnique(t, i - 1);
    ReorderedIsSwap(t, id, Up);
    SwapTwice(s, i - 1, i);
  }

  // ---------------------------------------------------------------- templates

  /** `template.shapes.map(shape => ({ ...shape, id: generateUUID() }))` with the fresh ids given. */
  function CloneShapes(ts: seq<Shape>, ids: seq<string>): (r: seq<Shape>)
    requires |ids| == |ts|
  {
    seq(|ts|, i requires 0 <= i < |ts| => ts[i].(id := ids[i]))
  }

  /** The `reduce` that maps every template shape id to its clone's id; a later
      shape with the same id overwrites an earlier one. */
  function IdMap(ts: seq<Shape>, ids: seq<string>): (m: map<string, string>)
    requires |ids| == |ts|
    ensures forall k :: k in m <==> HasId(ts, k)
    ensures forall k :: k in m ==> m[k] in ids
    decreases |ts|
  {
    if |ts| == 0 then map[]
    else
      var n := |ts| - 1;
      var m := IdMap(ts[..n], ids[..n]);
      assert forall k :: HasId(ts, k) <==> HasId(ts[..n], k) || ts[n].id == k by {
        forall k | HasId(ts, k) ensures HasId(ts[..n], k) || ts[n].id == k {
          var j :| 0 <= j < |ts| && ts[j].id == k;
          if j < n { assert ts[..n][j] == ts[j]; }
        }
        forall k | HasId(ts[..n], k) ensures HasId(ts, k) {
          var j :| 0 <= j < n && ts[..n][j].id == k;
          assert ts[j] == ts[..n][j];
        }
      }
      m[ts[n].id := ids[n]]
  }

  /** The map sends each template id to the fresh id of its last occurrence, so
      with unique template ids the i-th shape's id goes to the i-th fresh id. */
  lemma {:induction false} IdMapLastWins(ts: seq<Shape>, ids: seq<string>, i: int)
    requires |ids| == |ts|
    requires 0 <= i < |ts|
    requires forall j :: i < j < |ts| ==> ts[j].id != ts[i].id
    ensures ts[i].id in IdMap(ts, ids) && IdMap(ts, ids)[ts[i].id] == ids[i]
    decreases |ts|
  {
    var n := |ts| - 1;
    if i < n {
      IdMapLastWins(ts[..n], ids[..n], i);
    }
  }

  /** A line endpoint after `idMap[endpoint]`; an id the map lacks reads as undefined. */
  function MapEndpoint(m: map<string, string>, endpoint: Option<string>): Option<string> {
    if endpoint.Some? && endpoint.value in m then Some(m[endpoint.value]) else None
  }

  /** Lines cloned under fresh ids with their endpoints rewritten through the map. */
  function CloneLines(ls: seq<Line>, ids: seq<string>, m: map<string, string>): (r: seq<Line>)
    requires |ids| == |ls|
  {
    seq(|ls|, i requires 0 <= i < |ls| =>
      ls[i].(id := ids[i], startShapeId := MapEndpoint(m, ls[i].startShapeId), endShapeId := MapEndpoint(m, ls[i].endShapeId)))
  }

  /** `loadTemplate(template)`: install the cloned shapes and lines and record the
      pre-load shape list as one history entry. */
  function LoadTemplate(st: CanvasState, t: Template, shapeIds: seq<string>, lineIds: seq<string>): CanvasState
    requires |shapeIds| == |t.shapes| && |lineIds| == |t.lines|
  {
    var cloned := CloneShapes(t.shapes, shapeIds);
    var m := IdMap(t.shapes, shapeIds);
    st.(timeline := Commit(st.timeline, cloned), lines := CloneLines(t.lines, lineIds, m))
  }

  /** Both endpoints of a line name shapes of the list. */
  ghost predicate Attached(l: Line, s: seq<Shape>) {
    && l.startShapeId.Some? && HasId(s, l.startShapeId.value)
    && l.endShapeId.Some? && HasId(s, l.endShapeId.value)
  }

  /** Every line of the template names shapes of the same template. */
  ghost predicate SelfContained(t: Template) {
    forall l :: l in t.lines ==> Attached(l, t.shapes)
  }

  /** Loading a template installs as many shapes and lines as it has: each clone
      equal to its original but for the fresh id, each line's label kept. When
      the template is self-contained every cloned line is attached to cloned
      shapes, and its endpoints are fresh ids, so none names a template id once
      the fresh ids avoid them. */
  lemma LoadTemplateClones(st: CanvasState, t: Template, shapeIds: seq<string>, lineIds: seq<string>)
    requires |shapeIds| == |t.shapes| && |lineIds| == |t.lines|
    ensures var r := LoadTemplate(st, t, shapeIds, lineIds);
      && |r.timeline.shapes| == |t.shapes| && |r.lines| == |t.lines|
      && (forall i :: 0 <= i < |t.shapes| ==> r.timeline.shapes[i] == t.shapes[i].(id := shapeIds[i]))
      && (forall i :: 0 <= i < |t.lines| ==> r.lines[i].id == lineIds[i] && r.lines[i].labelText == t.lines[i].labelText)
    ensures SelfContained(t) ==>
      var r := LoadTemplate(st, t, shapeIds, lineIds);
      forall l :: l in r.lines ==>
        && Attached(l, r.timeline.shapes)
        && l.startShapeId.value in shapeIds && l.endShapeId.value in shapeIds
  {
    var r := LoadTemplate(st, t, shapeIds, lineIds);
    var cloned := r.timeline.shapes;
    if SelfContained(t) {
      forall l | l in r.lines
        ensures Attached(l, cloned) && l.startShapeId.value in shapeIds && l.endShapeId.value in shapeIds
      {
        var i :| 0 <= i < |r.lines| && r.lines[i] == l;
        assert Attached(t.lines[i], t.shapes);
        var m := IdMap(t.shapes, shapeIds);
        forall k | k in m ensures HasId(cloned, m[k]) {
          var j :| 0 <= j < |shapeIds| && shapeIds[j] == m[k];
          assert cloned[j].id == m[k];
        }
      }
    }
  }

  /** Template freshness: when the fresh ids are distinct and unused by the live
      list, the loaded list has unique ids and shares none with the live list. */
  lemma LoadTemplateFresh(st: CanvasState, t: Template, shapeIds: seq<string>, lineIds: seq<string>)
    requires |shapeIds| == |t.shapes| && |lineIds| == |t.lines|
    requires forall i, j :: 0 <= i < j < |shapeIds| ==> shapeIds[i] != shapeIds[j]
    requires forall k :: k in shapeIds ==> !HasId(st.timeline.shapes, k)
    ensures var r := LoadTemplate(st, t, shapeIds, lineIds);
      && UniqueIds(r.timeline.shapes)
      && forall x :: x in r.timeline.shapes ==> !HasId(st.timeline.shapes, x.id)
  {
  }

  /** A load is one history entry holding the pre-load list: a single undo brings
      back the old shapes (and history), while the lines stay as loaded. */
  lemma UndoAfterLoadTemplate(st: CanvasState, t: Template, shapeIds: seq<string>, lineIds: seq<string>)
    requires |shapeIds| == |t.shapes| && |lineIds| == |t.lines|
    ensures var loaded := LoadTemplate(st, t, shapeIds, lineIds);
      && loaded.timeline.history == st.timeline.history + [st.timeline.shapes]
      && Undo(loaded).timeline.shapes == st.timeline.shapes
      && Undo(loaded).timeline.history == st.timeline.history
      && Undo(loaded).lines == loaded.lines
      && Undo(loaded).trash == st.trash
  {
    UndoAfterCommit(st.timeline, CloneShapes(t.shapes, shapeIds));
  }

  // --------------------------------------------------------------- projects

  function DigitChar(d: int): char
    requires 0 <= d < 10
  {
    "0123456789"[d]
  }

  /** The decimal rendering of a count in a template string. */
  function Decimal(n: nat): (r: string)
    ensures |r| > 0 && forall c :: c in r ==> '0' <= c <= '9'
    ensures n >= 10 ==> r[0] != '0'
    decreases n
  {
    if n < 10 then [DigitChar(n)] else Decimal(n / 10) + [DigitChar(n % 10)]
  }

  function DecimalValue(s: string): int
    decreases |s|
  {
    if |s| == 0 then 0 else 10 * DecimalValue(s[..|s| - 1]) + (s[|s| - 1] as int - '0' as int)
  }

  /** The rendering reads back as the number. */
  lemma {:induction false} DecimalRoundTrip(n: nat)
    ensures DecimalValue(Decimal(n)) == n
    decreases n
  {
    if n >= 10 {
      DecimalRoundTrip(n / 10);
      var r := Decimal(n);
      assert r[..|r| - 1] == Decimal(n / 10);
    }
  }

  /** `name || \`Project ${savedProjects.length + 1}\``: an empty or missing name gets the default. */
  function ProjectName(name: Option<string>, count: nat): string {
    if name.Some? && name.value != "" then name.value else "Project " + Decimal(count + 1)
  }

  /** `saveProject(name)`: the new project, holding a copy of the live list, goes
      first, and becomes the current project. */
  function SaveProject(st: CanvasState, name: Option<string>, id: string, date: string): CanvasState {
    st.(savedProjects := [SavedProject(id, ProjectName(name, |st.savedProjects|), st.timeline.shapes, date)] + st.savedProjects,
        currentProjectId := Some(id))
  }

  /** A saved project is a value: later edits of the live list do not reach it. */
  lemma SavedProjectIsSnapshot(st: CanvasState, name: Option<string>, id: string, date: string, shape: Shape)
    ensures var saved := SaveProject(st, name, id, date);
      && saved.savedProjects[0].shapes == st.timeline.shapes
      && AddShape(saved, shape).savedProjects[0].shapes == st.timeline.shapes
      && saved.savedProjects[1..] == st.savedProjects
      && (name.None? || name.value == "" ==> saved.savedProjects[0].name == "Project " + Decimal(|st.savedProjects| + 1))
  {
  }

  // --------------------------------------------------------------- selection

  function SelectShape(st: CanvasState, id: Option<string>): CanvasState {
    st.(selectedShapeId := id)
  }

  /** `saveToMirror()`: a copy of the live list. */
  function SaveToMirror(st: CanvasState): CanvasState {
    st.(mirrorDesign := st.timeline.shapes)
  }

  // ---------------------------------------------------------------- scenarios

  /** Two adds, two undos: the list is empty again; two redos: both shapes back in order. */
  lemma AddAddUndoUndoRedoRedo(s1: Shape, s2: Shape)
    ensures var after := AddShape(AddShape(Initial, s1), s2);
      && Undo(Undo(after)).timeline.shapes == []
      && Redo(Redo(Undo(Undo(after)))).timeline.shapes == [s1, s2]
  {
    var t := Initial.timeline;
    var lists := [[s1], [s1, s2]];
    assert AddShape(Initial, s1).timeline == Commit(t, [s1]);
    assert lists[1..] == [[s1, s2]];
    var t2 := Commit(Commit(t, [s1]), [s1, s2]);
    assert CommitAll(Commit(t, [s1]), [[s1, s2]]) == CommitAll(t2, []);
    assert CommitAll(t, lists) == t2;
    UndoRedoRoundTrip(t, lists);
  }

  /** Trashing a shape, then loading a template and undoing the load, returns to
      the state right after the trashing: only the load is undone. */
  lemma TrashThenLoadThenUndo(st: CanvasState, id: string, t: Template, shapeIds: seq<string>, lineIds: seq<string>)
    requires |shapeIds| == |t.shapes| && |lineIds| == |t.lines|
    ensures var trashed := DeleteToTrash(st, id);
            var r := Undo(LoadTemplate(trashed, t, shapeIds, lineIds));
      && r.timeline.shapes == trashed.timeline.shapes
      && r.timeline.history == trashed.timeline.history
      && r.trash == trashed.trash
      && !HasId(r.timeline.shapes, id)
  {
    var trashed := DeleteToTrash(st, id);
    UndoAfterLoadTemplate(trashed, t, shapeIds, lineIds);
    assert forall k :: 0 <= k < |trashed.timeline.shapes| ==> trashed.timeline.shapes[k].id != id;
  }
}
