# A verified model of the Forge mobile diagram editor core

The editor is a React Native app. A canvas holds shapes (rectangles, circles, text, images, …) and lines that join shapes by id. Two context stores keep the canvas state:

- the main store keeps the live shape list, an undo history and a redo stack, a trash, templates, zoom and saved projects;
- an older store keeps the same undo/redo mechanics and a simpler trash.

Two gesture components move and resize shapes. A small utility generates version-4 UUIDs. The login, onboarding and search screens hold a little state machine each.

This project models those parts in Dafny and proves what they promise:

- `shape_types.dfy` (module `ShapeTypes`) covers the value types: shapes, styles, lines and templates. It also covers the JavaScript idioms the stores rely on:
  - the object spread `{ ...base, ...patch }`;
  - `v || 100` on an optional number;
  - `Math.max`.
- `shape_list.dfy` (`ShapeList`) covers the array idioms keyed by shape id: `findIndex`, `find`, `filter(s => s.id !== id)` and `map(s => s.id === id ? … : s)`.
- `timeline.dfy` (`Timelines`) covers the shape list, history and redo stack shared by both stores, with the undo/redo laws.
- `canvas_model.dfy` (`CanvasModel`) covers the main store as a state record and one transition function per operation, with the properties proved about them.
- `builtin_templates.dfy` (`BuiltinTemplates`) holds the four built-in templates and proves that each is self-contained.
- `canvas_store.dfy` (`CanvasStore`) holds the main store as a class. Each method updates the fields in place and is proved to equal its transition function. `reorderShape` works on an array, by an adjacent swap.
- `app_canvas.dfy` (`AppCanvasModel`, `AppCanvasStore`) covers the older store, as functions and as a class.
- `draggable_shape.dfy` (`DraggableGestures`) covers the eight-handle resize and the pan of `DraggableShape`, and the patch written back at gesture end.
- `shape_gesture.dfy` (`ShapeGestures`) covers the drag and the corner resize of `Shape`.
- `uuid.dfy` (`Uuid`) covers `generateUUID` with the 16 random bytes as input. It models the version and variant bits of section 4.1 of RFC 4122, the 8-4-4-4-12 layout, and proves a parse-back round trip.
- `login.dfy` (`Login`) covers the email regex `/\S+@\S+\.\S+/`, decided by a left-to-right scanner proved equal to the regex's meaning, and the validation order of `handleLogin`.
- `onboarding.dfy` (`Onboarding`) covers the step machine of the onboarding carousel and which buttons each step shows.
- `search.dfy` (`Search`) covers the case-insensitive substring filter of the search screen.

Modelling choices:

- A JavaScript `number` is a `real`, and a byte is a `bv8`.
- A missing object key is `None`.
- Generated UUIDs, dates and random bytes are parameters of the operations that use them.
- React's `setState` updates are applied at once, in the order the code issues them.

Notes on the source:

- `DraggableShape.tsx` takes `useCanvas` from the older store (`frontend/app/components/DraggableShape.tsx:10`). That store's context value has no `updateShape`, so as written the gesture end reaches no store. This is recorded under "## Findings". Everywhere else the model hands the gesture-end patch to the main store's `updateShape`, the function the component names.
- `addTextShape` writes `fontSize` and `fontColor`, two keys the shape type does not declare. The model carries them as optional shape keys.
- The main store's `deleteShapeById` has the same code as `deleteToTrash`: it moves the shape to the trash rather than deleting it permanently.
- An edge handle (`'t'`, `'b'`, `'l'`, `'r'`) re-clamps the other axis. A live width below 40 is lifted to 40 even by a top or bottom handle.

## Model

| member | source | states |
|---|---|---|
| ShapeTypes.ParseKind | frontend/constants/type.ts:26 | a string is accepted only when it names one of the nine kinds |
| ShapeTypes.KindNameRoundTrip | frontend/constants/type.ts:26 | each of the nine kinds has its own string, which reads back as that kind |
| ShapeTypes.Pick | frontend/constants/type.ts:6-22 | one key of a spread: the patch's value when it has the key, else the base's |
| ShapeTypes.MergeStyleLaws | frontend/context/CanvasContext.tsx:190-193 | the style spread: the empty patch changes nothing, a repeated patch changes nothing more, and two patches compose into one |
| ShapeTypes.SizeOr | frontend/app/components/DraggableShape.tsx:27-28 | `v \|\| d`: a missing or zero size falls back to the default, any other value is kept, and a non-zero default gives a non-zero size |
| ShapeTypes.Max | frontend/app/components/DraggableShape.tsx:64-65 | `Math.max`: at least both arguments and equal to one of them |
| ShapeTypes.KindName | frontend/constants/type.ts:26 | the string stored for each of the nine kinds |
| ShapeTypes.MergeStyle | frontend/context/CanvasContext.tsx:193 | the style spread `{ ...base, ...patch }`, key by key; its laws are MergeStyleLaws |
| ShapeList.IndexOf | frontend/context/CanvasContext.tsx:344 | `findIndex`: the first index holding the id, or -1 exactly when no shape has it |
| ShapeList.FindById | frontend/context/CanvasContext.tsx:235 | `find`: a shape of the list with the id, present exactly when the id occurs |
| ShapeList.Found | frontend/context/CanvasContext.tsx:236-238 | the guarded append `if (found) [...xs, found]` adds one element or none |
| ShapeList.WithoutId | frontend/context/CanvasContext.tsx:174-176 | the filter leaves no shape with the id and returns the list unchanged when no shape has it |
| ShapeList.WithoutIdMembers | frontend/context/CanvasContext.tsx:174-176 | a shape survives the filter exactly when it was in the list and has another id |
| ShapeList.WithoutUniqueId | frontend/context/CanvasContext.tsx:233-251 | filtering out a unique id removes exactly the element at its index |
| ShapeList.MapById | frontend/context/CanvasContext.tsx:178-205 | the map replaces exactly the shapes with the id, keeping length and positions |
| ShapeList.Ids | frontend/context/CanvasContext.tsx:178-205 | the ids of a list, index by index |
| ShapeList.MapByIdKeepsIds | frontend/context/CanvasContext.tsx:178-205 | a map that keeps ids keeps the id sequence and so keeps ids unique |
| ShapeList.WithoutIdKeepsUnique | frontend/context/CanvasContext.tsx:243-251 | filtering a list with unique ids leaves its ids unique |
| ShapeList.WithoutIdAppend | frontend/context/CanvasContext.tsx:253-261 | the filter distributes over concatenation (used for trash appends) |
| ShapeList.FindByIdCons | frontend/context/CanvasContext.tsx:235 | `find` returns the head when it matches, else searches the tail |
| ShapeList.FindByIdAppend | frontend/context/CanvasContext.tsx:255 | `find` on `a + b` takes the match from `a` when `a` has one |
| ShapeList.FindUnique | frontend/context/CanvasContext.tsx:233-251 | with a unique id, `findIndex` and `find` return that shape's index and the shape itself |
| Timelines.UndoRedoInverse | frontend/context/CanvasContext.tsx:217-231 | undo then redo (non-empty history) and redo then undo (non-empty redo stack) restore the list and both stacks exactly |
| Timelines.UndoAfterCommit | frontend/context/CanvasContext.tsx:168-172 | undo right after `saveToHistory` restores the list and history and leaves the new list to redo; redo after it is a no-op |
| Timelines.UndoNDepth | frontend/context/CanvasContext.tsx:217-223 | each undo while history lasts moves exactly one snapshot to the redo stack |
| Timelines.UndoNExhausted | frontend/context/CanvasContext.tsx:217-218 | undo on an empty history is a no-op, so extra undos change nothing |
| Timelines.RedoNAfterUndoN | frontend/context/CanvasContext.tsx:217-231 | n redos undo n undos, as long as the history held n snapshots |
| Timelines.CommitAllDepth | frontend/context/CanvasContext.tsx:168-172 | k commits deepen the history by k, leave the last list live and nothing to redo |
| Timelines.UndoAllCommits | frontend/context/CanvasContext.tsx:168-223 | as many undos as commits restore the list and the history |
| Timelines.UndoRedoRoundTrip | frontend/context/CanvasContext.tsx:168-231 | undoing any run of commits restores the list and history, and redoing them all returns to the state after the commits |
| Timelines.Commit | frontend/context/CanvasContext.tsx:168-172 | `saveToHistory`: push the live list onto history, clear redo, install the new list |
| Timelines.Undo | frontend/context/CanvasContext.tsx:217-223 | `undo`: a no-op on an empty history, else pop the last snapshot into the list and push the live list onto redo |
| Timelines.Redo | frontend/context/CanvasContext.tsx:225-231 | `redo`: the mirror image of undo with the stacks exchanged |
| CanvasModel.AddShapeEffect | frontend/context/CanvasContext.tsx:160-172 | `addShape`/`addTextShape` append the shape last, push the previous list onto history, empty the redo stack, change nothing else, and one undo removes the shape |
| CanvasModel.TrashFrame | frontend/context/CanvasContext.tsx:174-176 | no delete or restore touches history or the redo stack, `deleteShape` leaves the trash alone, and an unknown id changes nothing |
| CanvasModel.DeleteToTrashMoves | frontend/context/CanvasContext.tsx:243-251 | trashing removes every shape with the id and appends the first match to the trash |
| CanvasModel.TrashRestoreRoundTrip | frontend/context/CanvasContext.tsx:243-261 | trashing and restoring a uniquely-id'd shape keeps the multiset of shapes, puts that shape last and leaves trash and stacks as they were |
| CanvasModel.PatchShape | frontend/context/CanvasContext.tsx:178-205 | a patched shape keeps its id, kind, visibility and colour |
| CanvasModel.UpdateShapeEffect | frontend/context/CanvasContext.tsx:178-205 | `updateShape` changes only shapes with the id: position replaced, style merged, text/uri/lock overwritten when given, ids and length kept, no history entry, no other field changed |
| CanvasModel.UpdateShapeStyleIsStyleUpdate | frontend/context/CanvasContext.tsx:207-215 | `updateShapeStyle` is `updateShape` with a patch that carries only a style |
| CanvasModel.UpdateShapeIdempotent | frontend/context/CanvasContext.tsx:178-205 | applying the same update twice equals applying it once |
| CanvasModel.ToggleVisible | frontend/context/CanvasContext.tsx:362-368 | the effective visibility flips (missing counts as visible) and nothing else of the shape changes |
| CanvasModel.ToggleLocked | frontend/context/CanvasContext.tsx:370-374 | the effective lock flips (missing counts as unlocked) and nothing else of the shape changes |
| CanvasModel.TogglesFlip | frontend/context/CanvasContext.tsx:362-374 | the toggles flip exactly the shapes with the id; two visibility toggles restore the effective flag and leave it explicit |
| CanvasModel.ZoomKeepsRange | frontend/context/CanvasContext.tsx:376-382 | zoom keeps the scale in [0.5, 2], moves it the right way, and in the interior a zoom out undoes a zoom in and vice versa |
| CanvasModel.Swap | frontend/context/CanvasContext.tsx:342-360 | exchanging two entries keeps length and multiset |
| CanvasModel.SpliceUp | frontend/context/CanvasContext.tsx:348-351 | splicing index i out and back in at i + 1 swaps it with its successor |
| CanvasModel.SpliceDown | frontend/context/CanvasContext.tsx:348-353 | splicing index i out and back in at i - 1 swaps it with its predecessor |
| CanvasModel.SpliceBack | frontend/context/CanvasContext.tsx:348-355 | splicing an element out and back in at its own index changes nothing |
| CanvasModel.SwapTwice | frontend/context/CanvasContext.tsx:342-360 | swapping the same pair twice restores the list |
| CanvasModel.ReorderedMoves | frontend/context/CanvasContext.tsx:342-360 | a found shape is spliced back in at an index within the list |
| CanvasModel.ReorderedIsSwap | frontend/context/CanvasContext.tsx:342-360 | `reorderShape` swaps the shape with its upper or lower neighbour, and does nothing at the end of the list or for an unknown id |
| CanvasModel.ReorderedPermutes | frontend/context/CanvasContext.tsx:342-360 | reordering always returns a permutation of the list |
| CanvasModel.ReorderUpThenDown | frontend/context/CanvasContext.tsx:342-360 | with unique ids, up then down restores the list (below the top) |
| CanvasModel.ReorderDownThenUp | frontend/context/CanvasContext.tsx:342-360 | with unique ids, down then up restores the list (above the bottom) |
| CanvasModel.IdMap | frontend/context/CanvasContext.tsx:325-328 | the id map has a key exactly for each template shape id, and maps it to one of the fresh ids |
| CanvasModel.IdMapLastWins | frontend/context/CanvasContext.tsx:325-328 | a template id maps to the fresh id of its last occurrence |
| CanvasModel.LoadTemplateClones | frontend/context/CanvasContext.tsx:320-340 | a load installs one clone per template shape (equal but for the fresh id) and one line per template line; in a self-contained template every cloned line joins cloned shapes by fresh ids |
| CanvasModel.LoadTemplateFresh | frontend/context/CanvasContext.tsx:320-340 | with distinct unused fresh ids, the loaded list has unique ids disjoint from the previous list |
| CanvasModel.UndoAfterLoadTemplate | frontend/context/CanvasContext.tsx:320-340 | a load is one history entry: one undo restores the shapes and history, while the loaded lines stay |
| CanvasModel.Decimal | frontend/context/CanvasContext.tsx:384-396 | the number in the default project name is a non-empty run of digits without a leading zero |
| CanvasModel.DecimalRoundTrip | frontend/context/CanvasContext.tsx:384-396 | that rendering reads back as the number |
| CanvasModel.SavedProjectIsSnapshot | frontend/context/CanvasContext.tsx:384-396 | a saved project goes first, holds the live list as a value that later edits do not reach, and is named `Project n+1` when the name is empty |
| CanvasModel.AddAddUndoUndoRedoRedo | frontend/context/CanvasContext.tsx:160-231 | two adds and two undos empty the list; two redos bring both shapes back in order |
| CanvasModel.TrashThenLoadThenUndo | frontend/context/CanvasContext.tsx:320-340 | undoing a load after a trashing returns to the post-trash list, history and trash, with the trashed id still absent |
| CanvasModel.SaveToHistory | frontend/context/CanvasContext.tsx:168-172 | the main store's `saveToHistory` on the whole state: only the timeline changes |
| CanvasModel.AddShape | frontend/context/CanvasContext.tsx:160-162 | `addShape`: commit the list with the shape appended; its effect is AddShapeEffect |
| CanvasModel.AddLine | frontend/context/CanvasContext.tsx:164-166 | `addLine`: append the line, with no endpoint check and no history entry |
| CanvasModel.TextShape | frontend/context/CanvasContext.tsx:286-300 | the shape literal `addTextShape` builds, including its `fontSize` and `fontColor` keys |
| CanvasModel.AddTextShape | frontend/context/CanvasContext.tsx:285-302 | `addTextShape`: commit the list with the text shape appended |
| CanvasModel.Undo | frontend/context/CanvasContext.tsx:217-223 | the main store's `undo` on the whole state |
| CanvasModel.Redo | frontend/context/CanvasContext.tsx:225-231 | the main store's `redo` on the whole state |
| CanvasModel.DeleteShape | frontend/context/CanvasContext.tsx:174-176 | `deleteShape`: filter the id out, nothing else |
| CanvasModel.DeleteToTrash | frontend/context/CanvasContext.tsx:243-251 | `deleteToTrash` (and `deleteShapeById`, lines 233-241): filter the id out and append the first match to the trash when there is one |
| CanvasModel.RestoreFromTrash | frontend/context/CanvasContext.tsx:253-261 | `restoreFromTrash`: append the first trash match to the list when there is one, and filter the id out of the trash |
| CanvasModel.UpdateShape | frontend/context/CanvasContext.tsx:178-205 | `updateShape`: PatchShape on every shape with the id; its effect is UpdateShapeEffect |
| CanvasModel.UpdateShapeStyle | frontend/context/CanvasContext.tsx:207-215 | `updateShapeStyle`: merge the style of every shape with the id |
| CanvasModel.Shown | frontend/context/CanvasContext.tsx:365 | `isVisible ?? true`: a missing visibility flag counts as visible |
| CanvasModel.Locked | frontend/context/CanvasContext.tsx:372 | a missing lock flag counts as unlocked |
| CanvasModel.ToggleShapeVisibility | frontend/context/CanvasContext.tsx:362-368 | `toggleShapeVisibility`: ToggleVisible on every shape with the id, no history entry |
| CanvasModel.ToggleShapeLock | frontend/context/CanvasContext.tsx:370-374 | `toggleShapeLock`: ToggleLocked on every shape with the id, no history entry |
| CanvasModel.ZoomIn | frontend/context/CanvasContext.tsx:376-378 | `zoomIn`: `min(scale + 0.1, 2)` |
| CanvasModel.ZoomOut | frontend/context/CanvasContext.tsx:380-382 | `zoomOut`: `max(scale - 0.1, 0.5)` |
| CanvasModel.Reordered | frontend/context/CanvasContext.tsx:342-360 | the two splices of `reorderShape` as written; ReorderedIsSwap and ReorderedPermutes say what they do |
| CanvasModel.ReorderShape | frontend/context/CanvasContext.tsx:342-360 | `reorderShape` on the whole state: only the live list changes, with no history entry |
| CanvasModel.CloneShapes | frontend/context/CanvasContext.tsx:321-324 | each template shape under its fresh id |
| CanvasModel.MapEndpoint | frontend/context/CanvasContext.tsx:333-334 | `idMap[endpoint]`, undefined for an id the map lacks |
| CanvasModel.CloneLines | frontend/context/CanvasContext.tsx:330-335 | each template line under its fresh id, with both endpoints sent through the id map |
| CanvasModel.LoadTemplate | frontend/context/CanvasContext.tsx:320-340 | `loadTemplate`: install the cloned lines and commit the cloned shapes; its effect is LoadTemplateClones |
| CanvasModel.SelectShape | frontend/context/CanvasContext.tsx:304-306 | `selectShape`: only the selection changes |
| CanvasModel.SaveToMirror | frontend/context/CanvasContext.tsx:316-318 | `saveToMirror`: the mirror becomes a copy of the live list |
| CanvasModel.ProjectName | frontend/context/CanvasContext.tsx:386 | an empty or missing name becomes `Project n+1`, n the number of saved projects |
| CanvasModel.SaveProject | frontend/context/CanvasContext.tsx:384-396 | `saveProject`: prepend the new project holding the live list and make it current; its effect is SavedProjectIsSnapshot |
| BuiltinTemplates.Template1SelfContained | frontend/context/CanvasContext.tsx:63-92 | every line of the first template joins two of its own shapes |
| BuiltinTemplates.Template1LineAttached | frontend/context/CanvasContext.tsx:63-92 | each line of the first template names shapes of that template |
| BuiltinTemplates.Template2SelfContained | frontend/context/CanvasContext.tsx:93-117 | every line of the second template joins two of its own shapes |
| BuiltinTemplates.Template2LineAttached | frontend/context/CanvasContext.tsx:93-117 | each line of the second template names shapes of that template |
| BuiltinTemplates.Template3SelfContained | frontend/context/CanvasContext.tsx:118-128 | every line of the third template joins two of its own shapes |
| BuiltinTemplates.Template3LineAttached | frontend/context/CanvasContext.tsx:118-128 | each line of the third template names shapes of that template |
| BuiltinTemplates.Template4SelfContained | frontend/context/CanvasContext.tsx:129-141 | every line of the fourth template joins two of its own shapes |
| BuiltinTemplates.Template4LineAttached | frontend/context/CanvasContext.tsx:129-141 | each line of the fourth template names shapes of that template |
| BuiltinTemplates.LoadBuiltinTemplate | frontend/context/CanvasContext.tsx:62-142 | loading any built-in template leaves every loaded line joining two loaded shapes |
| CanvasStore.SwapAdjacent | frontend/context/CanvasContext.tsx:347-356 | the in-place exchange of neighbouring array entries equals the value-level swap |
| CanvasStore.ReorderedCopy | frontend/context/CanvasContext.tsx:342-360 | the array copy, swap and read-back equals the splice-based reorder |
| CanvasStore.Canvas.constructor | frontend/context/CanvasContext.tsx:145-158 | every field starts empty, the scale at 1, and the templates are the four built-in ones |
| CanvasStore.Canvas.SaveToHistory | frontend/context/CanvasContext.tsx:168-172 | the fields become the transition's result |
| CanvasStore.Canvas.AddShape | frontend/context/CanvasContext.tsx:160-162 | the fields become the `addShape` transition's result |
| CanvasStore.Canvas.AddLine | frontend/context/CanvasContext.tsx:164-166 | the line is appended, with no endpoint check and no history entry |
| CanvasStore.Canvas.AddTextShape | frontend/context/CanvasContext.tsx:285-302 | the fields become the `addTextShape` transition's result |
| CanvasStore.Canvas.Undo | frontend/context/CanvasContext.tsx:217-223 | the fields become the undo transition's result |
| CanvasStore.Canvas.Redo | frontend/context/CanvasContext.tsx:225-231 | the fields become the redo transition's result |
| CanvasStore.Canvas.DeleteShape | frontend/context/CanvasContext.tsx:174-176 | the fields become the permanent-delete transition's result |
| CanvasStore.Canvas.DeleteToTrash | frontend/context/CanvasContext.tsx:243-251 | the fields become the trash transition's result |
| CanvasStore.Canvas.DeleteShapeById | frontend/context/CanvasContext.tsx:233-241 | same effect as `deleteToTrash` |
| CanvasStore.Canvas.RestoreFromTrash | frontend/context/CanvasContext.tsx:253-261 | the fields become the restore transition's result |
| CanvasStore.Canvas.UpdateShape | frontend/context/CanvasContext.tsx:178-205 | the fields become the update transition's result |
| CanvasStore.Canvas.UpdateShapeStyle | frontend/context/CanvasContext.tsx:207-215 | the fields become the style-update transition's result |
| CanvasStore.Canvas.SelectShape | frontend/context/CanvasContext.tsx:304-306 | only the selection changes |
| CanvasStore.Canvas.SaveToMirror | frontend/context/CanvasContext.tsx:316-318 | only the mirror copy changes, to the live list |
| CanvasStore.Canvas.LoadTemplate | frontend/context/CanvasContext.tsx:320-340 | the fields become the load transition's result |
| CanvasStore.Canvas.ReorderShape | frontend/context/CanvasContext.tsx:342-360 | the list becomes the reordered list, by an in-place adjacent swap |
| CanvasStore.Canvas.ToggleShapeVisibility | frontend/context/CanvasContext.tsx:362-368 | the fields become the visibility-toggle transition's result |
| CanvasStore.Canvas.ToggleShapeLock | frontend/context/CanvasContext.tsx:370-374 | the fields become the lock-toggle transition's result |
| CanvasStore.Canvas.ZoomIn | frontend/context/CanvasContext.tsx:376-378 | the scale grows by 0.1, capped at 2 |
| CanvasStore.Canvas.ZoomOut | frontend/context/CanvasContext.tsx:380-382 | the scale shrinks by 0.1, floored at 0.5 |
| CanvasStore.Canvas.SaveProject | frontend/context/CanvasContext.tsx:384-396 | the fields become the save-project transition's result |
| AppCanvasModel.HistoryLaws | frontend/app/context/CanvasContext.tsx:50-70 | `saveToHistory` pushes the live list, clears redo and installs the new list; undo/redo are no-ops on empty stacks and inverse otherwise |
| AppCanvasModel.TrashFrame | frontend/app/context/CanvasContext.tsx:71-87 | no trash operation touches history or the redo stack, permanent deletion leaves the trash alone, and an unknown id changes nothing |
| AppCanvasModel.DeleteToTrashMoves | frontend/app/context/CanvasContext.tsx:76-82 | the first match is appended to the trash and no shape with the id is left |
| AppCanvasModel.RestoreUntrashed | frontend/app/context/CanvasContext.tsx:84-87 | restoring a never-trashed shape still appends it and leaves the trash as it was |
| AppCanvasModel.TrashRestoreRoundTrip | frontend/app/context/CanvasContext.tsx:76-87 | trashing and restoring a uniquely-id'd shape keeps the multiset, puts it last and empties the trash of it again |
| AppCanvasModel.SaveToHistory | frontend/app/context/CanvasContext.tsx:50-54 | the older store's `saveToHistory`, the shared commit |
| AppCanvasModel.Undo | frontend/app/context/CanvasContext.tsx:56-62 | the older store's `undo`, the shared undo |
| AppCanvasModel.Redo | frontend/app/context/CanvasContext.tsx:64-70 | the older store's `redo`, the shared redo |
| AppCanvasModel.DeleteShapeById | frontend/app/context/CanvasContext.tsx:71-73 | `deleteShapeById`: filter the id out of the list, nothing else |
| AppCanvasModel.DeleteToTrash | frontend/app/context/CanvasContext.tsx:76-82 | `deleteToTrash`: only when a shape has the id, append the first match to the trash and filter the id out |
| AppCanvasModel.RestoreShape | frontend/app/context/CanvasContext.tsx:84-87 | `restoreShape`: append the given shape and filter its id out of the trash |
| AppCanvasStore.Store.constructor | frontend/app/context/CanvasContext.tsx:25-29 | every list starts empty and nothing is selected |
| AppCanvasStore.Store.SaveToHistory | frontend/app/context/CanvasContext.tsx:50-54 | the fields become the transition's result |
| AppCanvasStore.Store.Undo | frontend/app/context/CanvasContext.tsx:56-62 | the fields become the undo transition's result |
| AppCanvasStore.Store.Redo | frontend/app/context/CanvasContext.tsx:64-70 | the fields become the redo transition's result |
| AppCanvasStore.Store.DeleteShapeById | frontend/app/context/CanvasContext.tsx:71-73 | the fields become the permanent-delete transition's result |
| AppCanvasStore.Store.DeleteToTrash | frontend/app/context/CanvasContext.tsx:76-82 | the fields become the trash transition's result |
| AppCanvasStore.Store.RestoreShape | frontend/app/context/CanvasContext.tsx:84-87 | the fields become the restore transition's result |
| DraggableGestures.AnchorLetters | frontend/app/components/DraggableShape.tsx:50-62 | the `includes` letter tests pick out exactly the handles on each edge, and no handle is on two opposite edges |
| DraggableGestures.InitialLive | frontend/app/components/DraggableShape.tsx:25-28 | the live values start at the shape's position and a non-zero size, 100 when missing |
| DraggableGestures.ResizeStep | frontend/app/components/DraggableShape.tsx:44-67 | after every resize event width and height are at least 40 |
| DraggableGestures.ResizeHorizontal | frontend/app/components/DraggableShape.tsx:50-66 | a left handle shrinks the width by dx and puts x at origin + dx; a right handle grows it and keeps x; a top or bottom handle keeps x |
| DraggableGestures.ResizeVertical | frontend/app/components/DraggableShape.tsx:57-67 | the same vertically, with top and bottom in the roles of left and right |
| DraggableGestures.EdgeAnchorsKeepOtherAxis | frontend/app/components/DraggableShape.tsx:50-67 | an edge handle leaves the other axis's position alone and its size too once that size is at least 40 |
| DraggableGestures.LeftClampMovesRightEdge | frontend/app/components/DraggableShape.tsx:51-66 | when the width clamps at 40, x still moves by the full delta, pushing the right edge out |
| DraggableGestures.RightResizeCompounds | frontend/app/components/DraggableShape.tsx:45-64 | successive events compound: two events grow the width by the sum of both cumulative translations |
| DraggableGestures.LeftResizeDrifts | frontend/app/components/DraggableShape.tsx:45-66 | with a left handle width compounds while x does not, so the right edge drifts |
| DraggableGestures.PanStep | frontend/app/components/DraggableShape.tsx:116-119 | a pan event leaves the live size alone |
| DraggableGestures.EndPatch | frontend/app/components/DraggableShape.tsx:35-40 | the patch carries exactly the live position and the live width and height |
| DraggableGestures.EndPatchEffect | frontend/app/components/DraggableShape.tsx:35-40 | the corrected wiring (see "## Findings"): through the main store's `updateShape`, the patch moves the shape to the live position and sets its size, keeping every other style key and every other shape |
| DraggableGestures.PanOnlyWritesDefaultSize | frontend/app/components/DraggableShape.tsx:111-120 | a drag alone writes back the starting size, so a missing width is written as 100 |
| DraggableGestures.DraggableShape.constructor | frontend/app/components/DraggableShape.tsx:25-28 | the shared values start as the initial live values |
| DraggableGestures.DraggableShape.OnResizeUpdate | frontend/app/components/DraggableShape.tsx:44-67 | the shared values become one resize step of their old values, both sizes at least 40 |
| DraggableGestures.DraggableShape.OnPanUpdate | frontend/app/components/DraggableShape.tsx:116-119 | the shared values become one pan step |
| DraggableGestures.DraggableShape.UpdatePositionAndSize | frontend/app/components/DraggableShape.tsx:35-40 | returns the shape's id and the patch of live position and size, with no other key |
| DraggableGestures.EndGestureAsWritten | frontend/app/components/DraggableShape.tsx:22 | gesture end as wired to the older store: no store changes |
| DraggableGestures.GestureEndIsLost | frontend/app/components/DraggableShape.tsx:22-40 | the older store's context has no `updateShape`, so a gesture ending away from the stored position leaves the shape where it was, while the main store's `updateShape` would move it there |
| ShapeGestures.DragOffset | frontend/app/components/Shape.tsx:39-42 | the live offset is the stored position plus the translation |
| ShapeGestures.ResizeTarget | frontend/app/components/Shape.tsx:51-54 | the live size is never below 40 |
| ShapeGestures.ResizeUsesStoredSizeOnly | frontend/app/components/Shape.tsx:51-54 | a resize depends on the shape only through its stored width and height, a missing one acting as 100 |
| ShapeGestures.ShapeView.constructor | frontend/app/components/Shape.tsx:32-35 | offsets start at the position, sizes at the stored size or 100 |
| ShapeGestures.ShapeView.DragActive | frontend/app/components/Shape.tsx:39-42 | the offsets become the drag offset; the shape and sizes stay |
| ShapeGestures.ShapeView.DragEnd | frontend/app/components/Shape.tsx:43-46 | the shape's position becomes the live offset; nothing else in the shape changes |
| ShapeGestures.ShapeView.ResizeActive | frontend/app/components/Shape.tsx:51-54 | the sizes become the resize target from the stored style, both at least 40 |
| ShapeGestures.ShapeView.ResizeEnd | frontend/app/components/Shape.tsx:55-58 | the stored width and height become the live size; every other style key and shape field stays |
| ShapeGestures.RepeatedResizeEvents | frontend/app/components/Shape.tsx:51-54 | two events of one gesture leave the size of the latest only: no compounding |
| ShapeGestures.TwoResizeGestures | frontend/app/components/Shape.tsx:51-58 | across two gestures the second starts from the size the first stored |
| Uuid.VersionVariantBits | frontend/utils/uuid.ts:8-9 | the version byte has high nibble 4 and keeps its low nibble; the variant byte has top bits 10 and keeps its low six bits |
| Uuid.Masked | frontend/utils/uuid.ts:8-9 | masking keeps the 16 bytes |
| Uuid.MaskedBytes | frontend/utils/uuid.ts:7-9 | only bytes 6 and 8 change, and only in their version and variant bits |
| Uuid.MaskInPlace | frontend/utils/uuid.ts:8-9 | the in-place assignments leave the array equal to the masked bytes |
| Uuid.HexDigit | frontend/utils/uuid.ts:11 | a value below 16 becomes one lowercase hex digit |
| Uuid.Radix16 | frontend/utils/uuid.ts:11 | `toString(16)` gives a non-empty run of lowercase hex digits |
| Uuid.Radix16TwoDigits | frontend/utils/uuid.ts:11 | a value from 16 to 255 has exactly two base-16 digits |
| Uuid.PadStart | frontend/utils/uuid.ts:11 | `padStart` gives at least the target length, with the pad character in front of the unchanged string |
| Uuid.ToHex | frontend/utils/uuid.ts:11 | `toHex` writes lowercase hex digits only |
| Uuid.ToHexTwoDigits | frontend/utils/uuid.ts:11 | every byte renders as exactly two digits, high nibble first, zero-padded |
| Uuid.HexStringAt | frontend/utils/uuid.ts:12 | the joined string is twice as long as the bytes, byte i at digits 2i and 2i + 1 |
| Uuid.HexStringDigits | frontend/utils/uuid.ts:12 | the joined string is all lowercase hex digits |
| Uuid.GenerateUuidInPlace | frontend/utils/uuid.ts:6-15 | masks the array in place and returns the formatted UUID of the original bytes |
| Uuid.FormatAt | frontend/utils/uuid.ts:14 | where each character of the 8-4-4-4-12 layout comes from |
| Uuid.UuidLayout | frontend/utils/uuid.ts:11-14 | 36 characters, hyphens at 8, 13, 18 and 23, lowercase hex digits elsewhere |
| Uuid.UuidVersionVariant | frontend/utils/uuid.ts:8-14 | character 14 is `4` and character 19 is one of 8, 9, a, b |
| Uuid.HexValue | frontend/utils/uuid.ts:11 | a digit's value is below 16 |
| Uuid.HexValueDigit | frontend/utils/uuid.ts:11 | reading a written digit gives back its value |
| Uuid.ParseHexString | frontend/utils/uuid.ts:11-12 | the hex rendering parses back to the bytes |
| Uuid.FormatDropsHyphens | frontend/utils/uuid.ts:14 | removing the hyphens from the layout gives back the 32 digits |
| Uuid.UuidRoundTrip | frontend/utils/uuid.ts:6-15 | removing the hyphens and parsing the digits recovers the 16 masked bytes |
| Uuid.SetVersion | frontend/utils/uuid.ts:8 | `(b & 0x0f) \| 0x40` |
| Uuid.SetVariant | frontend/utils/uuid.ts:9 | `(b & 0x3f) \| 0x80` |
| Uuid.HexString | frontend/utils/uuid.ts:12 | `map(toHex).join('')`; its layout is HexStringAt |
| Uuid.Format | frontend/utils/uuid.ts:14 | the 8-4-4-4-12 template string; its layout is FormatAt |
| Uuid.GenerateUuid | frontend/utils/uuid.ts:6-15 | `generateUUID` on given random bytes; its properties are UuidLayout, UuidVersionVariant and UuidRoundTrip |
| Login.PatternStep | app/login.tsx:15-18 | one more character completes the regex match exactly when it is a non-space after a closing `.` |
| Login.DomainStep | app/login.tsx:15-18 | how one character moves the text into, within or out of the run after an `@` |
| Login.StepMeans | app/login.tsx:15-18 | each scanner step keeps the meaning of its state |
| Login.ScanMeans | app/login.tsx:15-18 | the scanner's final state means what it says about the whole text |
| Login.ValidateEmail | app/login.tsx:15-18 | true exactly when some `@` and `.` make the text match `\S+@\S+\.\S+` |
| Login.LoginErrorCases | app/login.tsx:20-29 | missing credentials are reported first and never as a format error; the format error means both present and no match; no error means both present and a match |
| Login.LoginExamples | app/login.tsx:20-29 | a password of spaces passes the presence check; an address without a `.` after `@` fails the format check; an empty email is reported as missing |
| Login.LoginScreen.constructor | app/login.tsx:9-12 | the fields start empty and not loading |
| Login.LoginScreen.ChangeEmail | app/login.tsx:9 | only the email changes |
| Login.LoginScreen.ChangePassword | app/login.tsx:10 | only the password changes |
| Login.LoginScreen.HandleLogin | app/login.tsx:20-30 | the error is the one the check order gives, and loading starts exactly when there is none |
| Login.LoginScreen.LoginTimerFires | app/login.tsx:31-35 | loading stops and the route becomes the recents tab |
| Login.IsSpace | app/login.tsx:17 | the characters JavaScript's `\s` matches |
| Login.EmailPattern | app/login.tsx:17 | what the unanchored regex `\S+@\S+\.\S+` matching somewhere in the text means |
| Login.Scan | app/login.tsx:15-18 | a left-to-right scanner for the regex; ScanMeans proves it decides EmailPattern |
| Login.LoginError | app/login.tsx:20-29 | the error `handleLogin` leaves; its cases are LoginErrorCases |
| Onboarding.Next | app/onboarding.tsx:40-45 | one step forward below the last step, a no-op on it |
| Onboarding.Back | app/onboarding.tsx:46-51 | one step back above the first step, a no-op on it |
| Onboarding.StepKeepsRange | app/onboarding.tsx:33-51 | neither button leaves the three steps |
| Onboarding.RunKeepsRange | app/onboarding.tsx:33-51 | any sequence of presses from a valid step stays within the three steps |
| Onboarding.NextBackInverse | app/onboarding.tsx:40-51 | next then back and back then next return to the same step away from the ends; at the ends the first press is a no-op |
| Onboarding.Buttons | app/onboarding.tsx:63-103 | exactly one of Next and Get started shows, Skip goes with Next, Back is disabled only on the first step, and one dot is active |
| Onboarding.NextWalksThrough | app/onboarding.tsx:33-51 | two Next presses reach the last step, a third stays there, and Back at the start stays |
| Onboarding.OnboardingScreen.constructor | app/onboarding.tsx:33 | the screen starts at step 0 |
| Onboarding.OnboardingScreen.HandleNext | app/onboarding.tsx:40-45 | the step becomes `Next` of the old step |
| Onboarding.OnboardingScreen.HandleBack | app/onboarding.tsx:46-51 | the step becomes `Back` of the old step |
| Onboarding.OnboardingScreen.HandleSkip | app/onboarding.tsx:52-54 | hands over to `onDone`, step unchanged |
| Onboarding.OnboardingScreen.HandleGetStarted | app/onboarding.tsx:55-57 | hands over to `onDone`, step unchanged |
| Onboarding.ShowsSkip | app/onboarding.tsx:63 | Skip is rendered before the last step |
| Onboarding.ShowsNext | app/onboarding.tsx:95 | Next is rendered before the last step |
| Onboarding.ShowsGetStarted | app/onboarding.tsx:95-103 | Get started is rendered in Next's place on the last step |
| Onboarding.BackDisabled | app/onboarding.tsx:92-93 | Back is disabled on the first step |
| Onboarding.ActiveDot | app/onboarding.tsx:87-89 | the dot of the current step is the active one |
| Onboarding.Run | app/onboarding.tsx:40-51 | a sequence of Next and Back presses; RunKeepsRange bounds it |
| Search.LowerChar | frontend/app/search.tsx:21 | `toLowerCase` maps an ASCII capital to its small letter and keeps every other character |
| Search.Lower | frontend/app/search.tsx:21 | lowercasing keeps the length and maps each character |
| Search.Includes | frontend/app/search.tsx:21 | `includes` is true exactly when the needle occurs at some index |
| Search.FilterKeepsOrder | frontend/app/search.tsx:20-22 | the result is a subsequence of the list in its order, an item is kept exactly when it matches, and no item is added |
| Search.EmptyQueryKeepsAll | frontend/app/search.tsx:20-22 | an empty query keeps every item |
| Search.EmptySearchShowsFive | frontend/app/search.tsx:6-22 | an empty query shows all five items |
| Search.OccursTransitive | frontend/app/search.tsx:21 | an occurrence inside an occurrence is an occurrence |
| Search.WideningKeeps | frontend/app/search.tsx:20-22 | a query contained in another keeps every item the other kept |
| Search.SearchScreen.constructor | frontend/app/search.tsx:15-16 | the screen starts with an empty query and the full list |
| Search.SearchScreen.HandleSearch | frontend/app/search.tsx:18-24 | the query is stored and the list shown is the full list filtered by it |
| Search.TypeThenClear | frontend/app/search.tsx:18-24 | every search filters the full list, so clearing the query shows all five items again |
| Search.Matches | frontend/app/search.tsx:21 | the lowercased name includes the lowercased query |
| Search.Filter | frontend/app/search.tsx:20-22 | `dummyData.filter(...)`; FilterKeepsOrder says what it keeps |

## Left out

- `saveToStorage` (frontend/context/CanvasContext.tsx:308-314) and the older store's load and save effects (frontend/app/context/CanvasContext.tsx:33-48) are left out. They are AsyncStorage I/O.
- `addImageFromGallery` (frontend/context/CanvasContext.tsx:263-283) is left out. It awaits the device's media picker and permission dialogs.
- The main store's `previewLine`, `popupShapeId` and `savedDesign` fields and their setters are left out. They are plain state setters with no logic.
- Random bytes, generated UUIDs and the current date are parameters. `Crypto.getRandomBytesAsync` and `new Date()` are not called. The main store imports its `generateUUID` from `@/utils/generateUUID`, which is not part of this model, so the store's fresh ids are parameters as well.
- The distinctness of the fresh ids a load receives is a hypothesis of `CanvasModel.LoadTemplateFresh`, not a fact the model proves. UUID collisions are not modelled.
- Numbers are exact reals. Floating-point rounding (for example of repeated 0.1 zoom steps) is not modelled.
- `withSpring` in the pan gesture is modelled as its target value. The animation in between is not modelled.
- The pan gesture's `onBegin` selection, the long-press gesture, and the handle placement (frontend/app/components/DraggableShape.tsx:79-99, 122-160) are left out. They are rendering and selection UI.
- ShapeGestures.ShapeView: `Shape.tsx` writes into the shape object it was given, in place. The model keeps a copy of the shape as a value field, so aliasing with the store's list is not captured.
- ShapeGestures.ResizeTarget: its own contract states only the lower bound of 40. The exact value is stated by `ShapeGestures.RepeatedResizeEvents` and `ShapeGestures.TwoResizeGestures`.
- DraggableGestures.ResizeStep: its own contract states only the lower bound of 40. The exact width, height and position are stated by `DraggableGestures.ResizeHorizontal` and `DraggableGestures.ResizeVertical`.
- React's batching and asynchronous `setState` are not modelled. Each update is applied at once, in the order the code issues it.
- `loadTemplate`'s id map is a finite map. Object-prototype keys such as `constructor` that a plain object would also answer are not modelled.
- `addLine` does no endpoint check, and the model keeps that: nothing proves a line names existing shapes except for template loads.
- Search.LowerChar: only ASCII letters are lowercased. `toLowerCase` on other scripts is not modelled.
- Login.LoginScreen.LoginTimerFires: the one-second `setTimeout` delay is not modelled. The callback is a separate method that can be called at any time after `handleLogin`.
- The onboarding screen's `onScroll` handler (app/onboarding.tsx:36-39) is left out. It divides a floating-point scroll offset and rounds it.
- The tab bar, haptics and other screens of the app, and the backend server, are not part of this model.
- DraggableGestures.DraggableShape: the `shape` prop is a constant of the component. Under the corrected wiring the store update at gesture end would re-render the component with the moved shape, and that re-render is not modelled. Under the code as written no store changes, so the prop indeed stays as it was.

## Findings

| source | as written | input that shows it | evidently intended | confidence | as-written member | corrected member |
|---|---|---|---|---|---|---|
| frontend/app/components/DraggableShape.tsx:22 | `updateShape` is taken from `useCanvas()` of the older store (imported at line 10), whose context value (frontend/app/context/CanvasContext.tsx:90-104) has no `updateShape`; `runOnJS(updateShape)` at gesture end calls `undefined`, so no store is updated | any drag or resize whose live position differs from the shape's stored position, for example a pan by (10, 0) | the live position and size are written into the shape through a store's `updateShape` | not executed; high, the context value lists its keys explicitly | DraggableGestures.GestureEndIsLost | DraggableGestures.EndPatchEffect |
