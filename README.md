# Drag-and-drop position state, modelled in Dafny

Two demo screens share the same position logic, which this project models:

- the "custom drag layer" screen (`src/custom.js`)
- the "naive" screen (`src/naive.js`)

Each screen has a `Container`. The container holds a map from box id to box. A box has a left, a top and a title. The box ids start as `a` and `b`.

When a box is dropped, the `drop` handler takes the dragged item's position and adds the pointer's delta. It rounds the result with `Math.round`. On the custom screen it then snaps each axis to the nearest multiple of 32 when its `snapToGrid` is set. It commits the position through `moveBox`.

On the custom screen, `useDrop` memoises the drop handler on the dependency list `[moveBox]` (src/custom.js:163). `moveBox` is rebuilt only when `boxes` changes (src/custom.js:144). So the handler's `snapToGrid` is the value of "snap to grid after drop" at the first render, or at the last render where the boxes changed. It is not necessarily the current value. `CustomScreen.Container.dropSnap` models that captured value; see "## Findings". `moveBox` is a shallow `$merge` of `{left, top}` into one entry of the map.

The custom screen also has a drag layer. Its `getItemStyles` draws a preview of the dragged box, or hides it while either offset is unknown. When "snap to grid while dragging" is on, the preview is snapped relative to the offset where the drag began.

Checkboxes switch the options:

- the custom screen has two, and both start off;
- the naive screen has one, "hide the source item while dragging", which starts on.

Files:

- `geometry.dfy` (module `Geometry`): `Math.round` and `doSnapToGrid` on exact reals.
- `boxes.dfy` (module `Boxes`): the box map, the `$merge` update and the position a drop commits. Both screens use it.
- `drag_layer.dfy` (module `DragLayer`): `getItemStyles`.
- `custom.dfy` (module `CustomScreen`): the custom screen's `Container` and `Example` as classes.
- `naive.dfy` (module `NaiveScreen`): the naive screen's `Container`, `Box` and `Example`.

The React state holders become classes:

- `boxes` becomes a `map` field, and `MoveBox` and `Drop` reassign it;
- the option flags become `bool` fields, and the checkbox handlers flip them.

Each container also keeps a ghost history of every `moveBox` call. Its invariant `Valid()` is `Boxes.FromHistory`: `boxes` is the initial map with those moves merged in, oldest first (`Boxes.ApplyMoves`). Two facts follow for any history: the set of box ids is always `{a, b}`, and no title ever changes.

Rounding is modelled exactly. `Math.round(r)` is `Floor(r + 1/2)`: the unique integer in `(r - 1/2, r + 1/2]`, so ties go toward +infinity. Snapping gives the unique multiple of 32 in `(c - 16, c + 16]`. For an integer `x` that is `((x + 16) div 32) * 32`.

A drop rounds first and snaps the rounded value. So the committed coordinate is not always the grid line nearest the raw target, and is only guaranteed to lie within 16.5 of it. For example, a raw target of 15.5 rounds to 16, which snaps to 32, although 0 is nearer (`Boxes.DropRoundsBeforeSnapping`).

`moveBox` returns nothing and raises no error. Callers only pass ids of rendered boxes, so `id in boxes` is a precondition. Ties go upward, as `Math.round` breaks them.

## Model

| member | source | states |
|---|---|---|
| `Geometry.Round` | src/custom.js:153-154 | `Math.round` returns an integer within half a unit of its input, in the window (r - 1/2, r + 1/2] |
| `Geometry.RoundUnique` | src/custom.js:153-154 | any integer in that window is the result: rounding is determined by the window |
| `Geometry.RoundOfInteger` | src/naive.js:78-79 | rounding an integer coordinate leaves it unchanged |
| `Geometry.RoundTiesUp` | src/custom.js:153-154 | k + 1/2 rounds to k + 1 (ties toward +infinity) |
| `Geometry.Snap` | src/custom.js:43-44 | one axis of the snap is a multiple of 32, within 16 of the input, in the window (c - 16, c + 16] |
| `Geometry.SnapUnique` | src/custom.js:43-44 | the grid line in that window is unique, so the snap is the nearest grid line |
| `Geometry.SnapFixesGrid` | src/custom.js:42-46 | a coordinate already on the grid is returned unchanged |
| `Geometry.SnapIdempotent` | src/custom.js:42-46 | snapping twice equals snapping once |
| `Geometry.SnapOfInteger` | src/custom.js:43-44 | on integers, snapping equals ((x + 16) div 32) * 32 |
| `Geometry.SnapTiesUp` | src/custom.js:43-44 | an integer with x mod 32 == 16 snaps up to x + 16 |
| `Geometry.SnapToGrid` | src/custom.js:42-46 | both returned coordinates are multiples of 32, each within 16 of its own input |
| `Boxes.InitialBoxes` | src/custom.js:129-132 | the container starts with exactly the ids a and b |
| `Boxes.MergePosition` | src/custom.js:134-145 | the `$merge` sets left and top of boxes[id] and keeps its title; the key set and every other box are unchanged |
| `Boxes.ApplyMoves` | src/naive.js:55-71 | after any history of moves the key set is the initial one, every title is kept, and a box no move names is unchanged |
| `Boxes.FromHistory` | src/naive.js:55-71 | a box map built from the initial boxes by any history of moves has ids {a, b} and the initial titles |
| `Boxes.ApplyMovesAppend` | src/naive.js:60-71 | one more `moveBox` call is one more merge on top of the history so far |
| `Boxes.ApplyMovesLastWins` | src/custom.js:134-145 | after any history, a box stands at the left and top of the last move that named it |
| `Boxes.MergeIdempotent` | src/custom.js:134-145 | merging the same position twice gives the same map as merging it once |
| `Boxes.MergeCurrentPosition` | src/naive.js:60-71 | merging the position a box already has leaves the map unchanged |
| `Boxes.DropPosition` | src/custom.js:150-161 | without snapping, each coordinate is the rounding of item + delta (within 1/2); with snapping, both are multiples of 32 and within 16.5 of item + delta |
| `Boxes.DropSnapsRoundedTarget` | src/custom.js:153-157 | with snapping, the committed position is the snap of the rounded (not the raw) target |
| `Boxes.DropRoundsBeforeSnapping` | src/custom.js:153-157 | a raw target of 15.5 commits 32, although the grid line nearest it is 0 |
| `Boxes.DropZeroDelta` | src/naive.js:77-80 | a drop with zero delta commits the item's own position |
| `Boxes.DropZeroDeltaOnGrid` | src/custom.js:150-161 | with snapping, a zero-delta drop of a grid-aligned box commits its own position |
| `Boxes.DropExamples` | src/custom.js:150-161 | box a at (80, 20) moved by (3, 4) lands at (96, 32) with snapping and at (83, 24) without; moved by (0.4, 0.6) without snapping it lands at (80, 21) |
| `DragLayer.GetItemStyles` | src/custom.js:177-199 | hidden exactly when an offset is missing; unsnapped, it equals the current offset; snapped, it is a whole number of cells from the initial offset and within 16 of the current offset |
| `DragLayer.SnappedPreviewUnique` | src/custom.js:184-192 | the snapped preview is the only point that is a whole number of cells from the initial offset and in the window (current - 16, current + 16] |
| `DragLayer.PreviewAlignedUnchanged` | src/custom.js:184-192 | when the pointer is already a whole number of cells from the start, snapping does not move the preview |
| `DragLayer.PreviewSnapIdempotent` | src/custom.js:184-192 | snapping a snapped preview again leaves it where it is |
| `CustomScreen.Container.constructor` | src/custom.js:128-164 | the boxes start as the initial map with an empty move history; the drop handler is built with the initial `snapToGrid` prop |
| `CustomScreen.Container.Rerender` | src/custom.js:147-164 | a new `snapToGrid` prop alone leaves the memoised drop handler's flag, the boxes and the history unchanged |
| `CustomScreen.Container.MoveBox` | src/custom.js:134-145 | only boxes[id].left and boxes[id].top change; title, key set and other boxes are kept; the move is appended to the history; the drop handler's flag is refreshed to the current prop exactly when the boxes changed |
| `CustomScreen.Container.Drop` | src/custom.js:147-164 | commits the drop position computed with the flag the memoised handler holds; with that flag set, the committed coordinates are on the grid; other boxes and the title are kept |
| `CustomScreen.Container.DropIntended` | src/custom.js:150-161 | with `snapToGrid` among the dependencies, commits the drop position computed with the current prop; the held flag follows `moveBox` |
| `CustomScreen.Example.constructor` | src/custom.js:243-244 | both snap options start false, and so does the drop handler's flag |
| `CustomScreen.Example.HandleSnapToGridAfterDropChange` | src/custom.js:246-248 | negates the after-drop flag, passes it to the container as its new prop, and leaves the other flag, the boxes, the move history and the drop handler's flag alone |
| `CustomScreen.Example.HandleSnapToGridWhileDraggingChange` | src/custom.js:250-252 | negates the while-dragging flag and leaves the other flag alone |
| `CustomScreen.Example.Drop` | src/custom.js:256 | a drop snaps when the handler's captured flag is set; after a drop that moves a box, that flag equals the after-drop option again, and after one that moves nothing it stays as it was |
| `CustomScreen.Example.DropIntended` | src/custom.js:256 | with the corrected handler, a drop snaps exactly when the after-drop option is set |
| `CustomScreen.Example.PreviewStyle` | src/custom.js:257 | the preview is hidden exactly when an offset is missing; with the while-dragging flag off it is the current offset; with it on, it is a whole number of cells from the initial offset and within 16 of the current offset |
| `CustomScreen.ToggleTwiceRestores` | src/custom.js:246-252 | two clicks on either checkbox restore both flags |
| `CustomScreen.StaleSnapSurvivesDropInPlace` | src/custom.js:144-163 | as written: with "snap to grid after drop" switched on, dropping box a where it stands leaves the boxes unchanged, so the handler still holds `false` |
| `CustomScreen.StaleSnapAfterToggle` | src/custom.js:147-164 | as written: with "snap to grid after drop" switched on, dropping box a by (3, 4) commits the unsnapped (83, 24) |
| `CustomScreen.CurrentSnapAfterToggle` | src/custom.js:147-164 | corrected: the same clicks and drop commit the snapped (96, 32) |
| `NaiveScreen.RenderBox` | src/naive.js:44-51 | a box renders the empty placeholder exactly when it is dragged with hiding on; otherwise it renders its own position and title |
| `NaiveScreen.Container.constructor` | src/naive.js:55-58 | the boxes start as the initial map with ids {a, b} and an empty move history, and the invariant holds |
| `NaiveScreen.Container.MoveBox` | src/naive.js:60-71 | only boxes[id].left and boxes[id].top change; the ids stay {a, b} and titles and other boxes are kept; the move is appended to the history |
| `NaiveScreen.Container.Drop` | src/naive.js:76-81 | commits the rounded item + delta (within 1/2 on each axis), never snapped; other boxes are unchanged |
| `NaiveScreen.Container.View` | src/naive.js:89-101 | each rendered box is the placeholder exactly when dragged with hiding on, else its stored position and title |
| `NaiveScreen.Example.constructor` | src/naive.js:109 | hideSourceOnDrag starts true |
| `NaiveScreen.Example.Toggle` | src/naive.js:110-113 | negates hideSourceOnDrag |
| `NaiveScreen.Example.BoxViewOf` | src/naive.js:117 | the container's boxes hide while dragged exactly when the screen's option is on |
| `NaiveScreen.DropInPlace` | src/naive.js:76-81 | a zero-delta drop of a box leaves the whole map unchanged |
| `NaiveScreen.ToggleTwiceRestores` | src/naive.js:110-113 | two clicks on the checkbox restore the option |

## Left out

- Rendering is left out: JSX, style objects, CSS transform strings and the `translate`/`translate3d` formatting. It is presentation only.
- The preview is modelled as a point (`ItemStyle`), not as a style object.
- The react-dnd hooks (`useDrag`, `useDrop`, `useDragLayer`) and the monitor queries are library calls. Their results enter the model as parameters: the drag item, the delta, the offsets and `isDragging`.
- The drag layer's `isDragging` check and its `itemType` switch (src/custom.js:216-227) only choose what to render.
- The timer-driven blinking in `BoxDragPreview` (src/custom.js:106-124) is left out.
- `getEmptyImage` preview wiring and the IE fallback are browser specifics.
- `src/index.js` only mounts the app in the DOM and is not part of this model.
- Pointer coordinates are exact reals. IEEE-754 rounding in `item.left + delta.x` and in `x / 32` is not modelled.
- immutability-helper's behaviour on an id missing from the map is not modelled: `MoveBox` and `Drop` require the id to be present.
- The drag item's `title` (custom screen) is used only by the preview's rendering. It is not part of `DragItem`.
- React's re-render scheduling is not modelled: each state update is followed at once by its re-render. The `useCallback` dependency lists are complete, so those handlers see the current state. The one incomplete dependency list, that of the custom screen's `useDrop`, is modelled by `CustomScreen.Container.dropSnap`.
- `CustomScreen.Container.MoveBox` refreshes the drop handler exactly when the merged map differs from the old one. This relies on two behaviours of the libraries: immutability-helper returns the same object when a `$merge` changes no value, and React skips the re-render for an unchanged state object.

## Findings

| source | as written | input that shows it | evidently intended | confidence | as-written member | corrected member |
|---|---|---|---|---|---|---|
| src/custom.js:147-164 | `useDrop`'s dependency list is `[moveBox]` only, so the drop handler keeps the `snapToGrid` prop of the last render where `boxes` changed | start the screen, tick "snap to grid after drop", drop box a (80, 20) by (3, 4): it lands at (83, 24) | the drop snaps whenever the checkbox is ticked: (96, 32) | not executed; medium, because it depends on `useDrop` memoising its spec on the dependency list | `CustomScreen.StaleSnapAfterToggle` | `CustomScreen.CurrentSnapAfterToggle` |
