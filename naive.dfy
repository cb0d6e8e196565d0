/**
 * The "naive" screen: a container whose drops commit the rounded position
 * without snapping, boxes that may hide while dragged, and the checkbox that
 * switches hiding.
 */
module NaiveScreen {
  import opened Boxes
  import opened Geometry

  /** What a box renders: an empty placeholder, or the title at its position. */
  datatype BoxView = Placeholder | Positioned(left: int, top: int, title: string)

  /** `Box`: the placeholder exactly while it is dragged with hiding on. */
  function RenderBox(box: Box, isDragging: bool, hideSourceOnDrag: bool): (v: BoxView)
    ensures v.Placeholder? <==> isDragging && hideSourceOnDrag
    ensures v.Positioned? ==> v.left == box.left && v.top == box.top && v.title == box.title
  {
    if isDragging && hideSourceOnDrag then Placeholder else Positioned(box.left, box.top, box.title)
  }

  /** The container's box state. */
  class Container {
    var boxes: map<string, Box>
    /** Every `moveBox` call so far, oldest first. */
    ghost var moves: seq<Move>

    /** The boxes are the initial ones with every move so far merged in. */
    ghost predicate Valid()
      reads this
    {
      FromHistory(boxes, moves)
    }

    constructor ()
      ensures Valid()
      ensures boxes == InitialBoxes() && moves == []
    {
      boxes := InitialBoxes();
      moves := [];
    }

    /** `moveBox(id, left, top)`: merge the new position into `boxes[id]`. */
    method MoveBox(id: string, left: int, top: int)
      requires Valid()
      requires id in boxes
      modifies this
      ensures Valid()
      ensures moves == old(moves) + [Move(id, left, top)]
      ensures boxes == MergePosition(old(boxes), id, left, top)
      ensures boxes.Keys == old(boxes).Keys
      ensures boxes[id] == Box(left, top, old(boxes)[id].title)
      ensures forall k :: k in old(boxes) && k != id ==> boxes[k] == old(boxes)[k]
    {
      ApplyMovesAppend(InitialBoxes(), moves, Move(id, left, top));
      boxes := MergePosition(boxes, id, left, top);
      moves := moves + [Move(id, left, top)];
    }

    /** The `drop` handler: commit the rounded position of item plus delta, never snapped. */
    method Drop(item: DragItem, delta: Delta)
      requires Valid()
      requires item.id in boxes
      modifies this
      ensures Valid()
      ensures var p := DropPosition(item, delta, false);
              && moves == old(moves) + [Move(item.id, p.left, p.top)]
              && boxes == MergePosition(old(boxes), item.id, p.left, p.top)
      ensures item.left as real + delta.x - 0.5 < boxes[item.id].left as real <= item.left as real + delta.x + 0.5
      ensures item.top as real + delta.y - 0.5 < boxes[item.id].top as real <= item.top as real + delta.y + 0.5
      ensures forall k :: k in old(boxes) && k != item.id ==> boxes[k] == old(boxes)[k]
    {
      var left := Round(item.left as real + delta.x);
      var top := Round(item.top as real + delta.y);
      MoveBox(item.id, left, top);
    }

    /** What the box with this id renders. */
    function View(id: string, isDragging: bool, hideSourceOnDrag: bool): (v: BoxView)
      reads this
      requires id in boxes
      ensures v.Placeholder? <==> isDragging && hideSourceOnDrag
      ensures v.Positioned? ==> v == Positioned(boxes[id].left, boxes[id].top, boxes[id].title)
    {
      RenderBox(boxes[id], isDragging, hideSourceOnDrag)
    }
  }

  /** The screen: the hiding option and the container it configures. */
  class Example {
    var hideSourceOnDrag: bool
    const container: Container

    ghost predicate Valid()
      reads this, container
    {
      container.Valid()
    }

    /** Hiding starts switched on; the boxes start at their initial positions. */
    constructor ()
      ensures Valid()
      ensures hideSourceOnDrag
      ensures fresh(container) && container.boxes == InitialBoxes()
    {
      hideSourceOnDrag := true;
      container := new Container();
    }

    /** The checkbox handler. */
    method Toggle()
      modifies this
      ensures hideSourceOnDrag == !old(hideSourceOnDrag)
    {
      hideSourceOnDrag := !hideSourceOnDrag;
    }

    /** What a box renders under the current hiding option. */
    function BoxViewOf(id: string, isDragging: bool): (v: BoxView)
      reads this, container
      requires id in container.boxes
      ensures v.Placeholder? <==> isDragging && hideSourceOnDrag
    {
      container.View(id, isDragging, hideSourceOnDrag)
    }
  }

  /** A drop with zero delta leaves the dropped box where it was. */
  method DropInPlace(c: Container, id: string)
    requires c.Valid()
    requires id in c.boxes
    modifies c
    ensures c.boxes == old(c.boxes)
  {
    var item := DragItem(id, c.boxes[id].left, c.boxes[id].top);
    DropZeroDelta(item);
    MergeCurrentPosition(c.boxes, id);
    c.Drop(item, Delta(0.0, 0.0));
  }

  /** Clicking the checkbox twice restores the option. */
  method ToggleTwiceRestores(e: Example)
    modifies e
    ensures e.hideSourceOnDrag == old(e.hideSourceOnDrag)
  {
    e.Toggle();
    e.Toggle();
  }
}
