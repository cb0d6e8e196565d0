/**
 * The "custom drag layer" screen: a container whose drops may snap to the
 * grid, a drag layer whose preview may snap while dragging, and the two
 * checkboxes that switch those modes.
 */
module CustomScreen {
  import opened Geometry
  import opened Boxes
  import opened DragLayer

  /** The container's box state and the drop handler it has memoised. */
  class Container {
    var boxes: map<string, Box>
    /** Every `moveBox` call so far, oldest first. */
    ghost var moves: seq<Move>
    /** The `snapToGrid` prop of the latest render. */
    var snapToGrid: bool
    /**
     * The `snapToGrid` the memoised drop handler closed over. `useDrop`
     * rebuilds its handler only when its dependency `moveBox` changes, and
     * `moveBox` changes only when `boxes` does; so this is the prop as it was
     * at the first render or at the last render where the boxes changed.
     */
    var dropSnap: bool

    /** The boxes are the initial ones with every move so far merged in. */
    ghost predicate Valid()
      reads this
    {
      FromHistory(boxes, moves)
    }

    /** The first render: the drop handler is built with the initial prop. */
    constructor (snapToGrid: bool)
      ensures Valid()
      ensures boxes == InitialBoxes() && moves == []
      ensures this.snapToGrid == snapToGrid && dropSnap == snapToGrid
    {
      boxes := InitialBoxes();
      moves := [];
      this.snapToGrid := snapToGrid;
      dropSnap := snapToGrid;
    }

    /** A re-render with a new `snapToGrid` prop; the memoised drop handler is kept. */
    method Rerender(snapToGrid: bool)
      modifies this
      ensures this.snapToGrid == snapToGrid
      ensures boxes == old(boxes) && moves == old(moves) && dropSnap == old(dropSnap)
    {
      this.snapToGrid := snapToGrid;
    }

    /**
     * `moveBox(id, left, top)`: merge the new position into `boxes[id]`. When
     * that changes the boxes, the re-render rebuilds `moveBox` and with it the
     * drop handler, which then sees the current prop.
     */
    method MoveBox(id: string, left: int, top: int)
      requires Valid()
      requires id in boxes
      modifies this
      ensures Valid()
      ensures moves == old(moves) + [Move(id, left, top)]
      ensures boxes == MergePosition(old(boxes), id, left, top)
      ensures boxes.Keys == old(boxes).Keys
      ensures boxes[id] == Box(left, top, old(boxes)[id].title)
      ensures forall k :: k in old(boxes) && k != id ==> boxes[k] == old(boxes)[k]
      ensures snapToGrid == old(snapToGrid)
      ensures dropSnap == if boxes == old(boxes) then old(dropSnap) else snapToGrid
    {
      ApplyMovesAppend(InitialBoxes(), moves, Move(id, left, top));
      var next := MergePosition(boxes, id, left, top);
      if next != boxes {
        dropSnap := snapToGrid;
      }
      boxes := next;
      moves := moves + [Move(id, left, top)];
    }

    /**
     * The memoised `drop` handler as written: round the dragged item's
     * position plus the pointer delta, snap it when the `snapToGrid` it closed
     * over is set, and commit it with `MoveBox`.
     */
    method Drop(item: DragItem, delta: Delta)
      requires Valid()
      requires item.id in boxes
      modifies this
      ensures Valid()
      ensures var p := DropPosition(item, delta, old(dropSnap));
              && moves == old(moves) + [Move(item.id, p.left, p.top)]
              && boxes == MergePosition(old(boxes), item.id, p.left, p.top)
      ensures old(dropSnap) ==> OnGrid(boxes[item.id].left) && OnGrid(boxes[item.id].top)
      ensures boxes[item.id].title == old(boxes)[item.id].title
      ensures forall k :: k in old(boxes) && k != item.id ==> boxes[k] == old(boxes)[k]
      ensures snapToGrid == old(snapToGrid)
      ensures dropSnap == if boxes == old(boxes) then old(dropSnap) else snapToGrid
    {
      var left := Round(item.left as real + delta.x);
      var top := Round(item.top as real + delta.y);
      if dropSnap {
        var snapped := SnapToGrid(left as real, top as real);
        left, top := snapped.0, snapped.1;
      }
      MoveBox(item.id, left, top);
    }

    /**
     * The `drop` handler with `snapToGrid` among its dependencies: it snaps
     * exactly when the current prop is set. It never reads `dropSnap`; the
     * field still follows `MoveBox`, which refreshes it when the boxes change.
     */
    method DropIntended(item: DragItem, delta: Delta)
      requires Valid()
      requires item.id in boxes
      modifies this
      ensures Valid()
      ensures var p := DropPosition(item, delta, snapToGrid);
              && moves == old(moves) + [Move(item.id, p.left, p.top)]
              && boxes == MergePosition(old(boxes), item.id, p.left, p.top)
      ensures snapToGrid ==> OnGrid(boxes[item.id].left) && OnGrid(boxes[item.id].top)
      ensures forall k :: k in old(boxes) && k != item.id ==> boxes[k] == old(boxes)[k]
      ensures snapToGrid == old(snapToGrid)
      ensures dropSnap == if boxes == old(boxes) then old(dropSnap) else snapToGrid
    {
      var left := Round(item.left as real + delta.x);
      var top := Round(item.top as real + delta.y);
      if snapToGrid {
        var snapped := SnapToGrid(left as real, top as real);
        left, top := snapped.0, snapped.1;
      }
      MoveBox(item.id, left, top);
    }
  }

  /** The screen: two option flags and the container they configure. */
  class Example {
    var snapToGridAfterDrop: bool
    var snapToGridWhileDragging: bool
    const container: Container

    /** The container is rendered with `snapToGrid={snapToGridAfterDrop}`. */
    ghost predicate Valid()
      reads this, container
    {
      container.Valid() && container.snapToGrid == snapToGridAfterDrop
    }

    /** Both options start switched off; the boxes start at their initial positions. */
    constructor ()
      ensures Valid()
      ensures !snapToGridAfterDrop && !snapToGridWhileDragging
      ensures fresh(container) && container.boxes == InitialBoxes() && !container.dropSnap
    {
      snapToGridAfterDrop := false;
      snapToGridWhileDragging := false;
      container := new Container(false);
    }

    /** The "snap to grid after drop" checkbox handler, and the re-render it causes. */
    method HandleSnapToGridAfterDropChange()
      requires Valid()
      modifies this, container
      ensures Valid()
      ensures snapToGridAfterDrop == !old(snapToGridAfterDrop)
      ensures snapToGridWhileDragging == old(snapToGridWhileDragging)
      ensures container.boxes == old(container.boxes) && container.moves == old(container.moves)
      ensures container.dropSnap == old(container.dropSnap)
    {
      snapToGridAfterDrop := !snapToGridAfterDrop;
      container.Rerender(snapToGridAfterDrop);
    }

    /** The "snap to grid while dragging" checkbox handler. */
    method HandleSnapToGridWhileDraggingChange()
      requires Valid()
      modifies this
      ensures Valid()
      ensures snapToGridWhileDragging == !old(snapToGridWhileDragging)
      ensures snapToGridAfterDrop == old(snapToGridAfterDrop)
    {
      snapToGridWhileDragging := !snapToGridWhileDragging;
    }

    /**
     * A drop on the container as written: it snaps when the after-drop option
     * was on at the last change of the boxes, not necessarily now; once a drop
     * moves a box, the handler catches up with the option.
     */
    method Drop(item: DragItem, delta: Delta)
      requires Valid()
      requires item.id in container.boxes
      modifies container
      ensures Valid()
      ensures var p := DropPosition(item, delta, old(container.dropSnap));
              container.boxes == MergePosition(old(container.boxes), item.id, p.left, p.top)
      ensures container.dropSnap ==
        if container.boxes == old(container.boxes) then old(container.dropSnap) else snapToGridAfterDrop
    {
      container.Drop(item, delta);
    }

    /** A drop with the corrected handler: it snaps exactly when the after-drop option is on. */
    method DropIntended(item: DragItem, delta: Delta)
      requires Valid()
      requires item.id in container.boxes
      modifies container
      ensures Valid()
      ensures var p := DropPosition(item, delta, snapToGridAfterDrop);
              container.boxes == MergePosition(old(container.boxes), item.id, p.left, p.top)
    {
      container.DropIntended(item, delta);
    }

    /**
     * The drag layer's preview style: with "snap to grid while dragging" on,
     * the point nearest the pointer that is a whole number of cells from
     * where the drag began.
     */
    function PreviewStyle(initialOffset: Option<Offset>, currentOffset: Option<Offset>): (s: ItemStyle)
      reads this
      ensures s.Hidden? <==> initialOffset.None? || currentOffset.None?
      ensures initialOffset.Some? && currentOffset.Some? && !snapToGridWhileDragging ==>
        s == Translate(currentOffset.value.x, currentOffset.value.y)
      ensures initialOffset.Some? && currentOffset.Some? && snapToGridWhileDragging ==>
        && s.Translate?
        && GridStep(s.x - initialOffset.value.x) && GridStep(s.y - initialOffset.value.y)
        && currentOffset.value.x - 16.0 < s.x <= currentOffset.value.x + 16.0
        && currentOffset.value.y - 16.0 < s.y <= currentOffset.value.y + 16.0
    {
      GetItemStyles(initialOffset, currentOffset, snapToGridWhileDragging)
    }
  }

  /** Clicking either checkbox twice restores both options. */
  method ToggleTwiceRestores(e: Example)
    requires e.Valid()
    modifies e, e.container
    ensures e.Valid()
    ensures e.snapToGridAfterDrop == old(e.snapToGridAfterDrop)
    ensures e.snapToGridWhileDragging == old(e.snapToGridWhileDragging)
  {
    e.HandleSnapToGridAfterDropChange();
    e.HandleSnapToGridAfterDropChange();
    e.HandleSnapToGridWhileDraggingChange();
    e.HandleSnapToGridWhileDraggingChange();
  }

  /**
   * As written: switch "snap to grid after drop" on, then drop box a (at
   * (80, 20)) by (3, 4). The option is on, yet the box lands unsnapped on
   * (83, 24), because the drop handler still holds the initial `false`.
   */
  method StaleSnapAfterToggle() returns (snapOn: bool, committed: Box)
    ensures snapOn
    ensures committed == Box(83, 24, "Drag me around")
  {
    var e := new Example();
    e.HandleSnapToGridAfterDropChange();
    DropExamples();
    e.Drop(DragItem("a", 80, 20), Delta(3.0, 4.0));
    snapOn := e.snapToGridAfterDrop;
    committed := e.container.boxes["a"];
  }

  /**
   * As written: switch "snap to grid after drop" on, then drop box a where it
   * stands. The boxes do not change, so the handler is not rebuilt and still
   * holds the initial `false`.
   */
  method StaleSnapSurvivesDropInPlace() returns (snapOn: bool, handlerSnap: bool, committed: Box)
    ensures snapOn && !handlerSnap
    ensures committed == Box(80, 20, "Drag me around")
  {
    var e := new Example();
    e.HandleSnapToGridAfterDropChange();
    var item := DragItem("a", 80, 20);
    DropZeroDelta(item);
    MergeCurrentPosition(e.container.boxes, "a");
    e.Drop(item, Delta(0.0, 0.0));
    snapOn := e.snapToGridAfterDrop;
    handlerSnap := e.container.dropSnap;
    committed := e.container.boxes["a"];
  }

  /** Corrected: the same clicks and drop snap box a onto (96, 32). */
  method CurrentSnapAfterToggle() returns (snapOn: bool, committed: Box)
    ensures snapOn
    ensures committed == Box(96, 32, "Drag me around")
  {
    var e := new Example();
    e.HandleSnapToGridAfterDropChange();
    DropExamples();
    e.DropIntended(DragItem("a", 80, 20), Delta(3.0, 4.0));
    snapOn := e.snapToGridAfterDrop;
    committed := e.container.boxes["a"];
  }
}
