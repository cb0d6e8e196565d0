/**
 * The position state shared by both demo screens: a map from box id to box,
 * the shallow `$merge` of a new position into one entry, and the position a
 * drop commits.
 */
module Boxes {
  import opened Geometry

  /** One draggable box as the container keeps it. */
  datatype Box = Box(left: int, top: int, title: string)

  /** What a drag carries: the id and the position the box had when the drag began. */
  datatype DragItem = DragItem(id: string, left: int, top: int)

  /** The pointer's difference from its initial offset when the box is dropped. */
  datatype Delta = Delta(x: real, y: real)

  /** A committed position. */
  datatype Position = Position(left: int, top: int)

  /** The boxes both containers start with. */
  function InitialBoxes(): (boxes: map<string, Box>)
    ensures boxes.Keys == {"a", "b"}
  {
    map["a" := Box(80, 20, "Drag me around"), "b" := Box(20, 180, "Drag me too")]
  }

  /**
   * `update(boxes, {[id]: {$merge: {left, top}}})`: the entry for `id` gets the
   * new left and top and keeps its title; no key is added or removed and every
   * other box is untouched.
   */
  function MergePosition(boxes: map<string, Box>, id: string, left: int, top: int): (r: map<string, Box>)
    requires id in boxes
    ensures r.Keys == boxes.Keys
    ensures r[id].left == left && r[id].top == top && r[id].title == boxes[id].title
    ensures forall k :: k in boxes && k != id ==> r[k] == boxes[k]
  {
    boxes[id := boxes[id].(left := left, top := top)]
  }

  /** One call of `moveBox(id, left, top)`. */
  datatype Move = Move(id: string, left: int, top: int)

  /**
   * The box map after a history of moves, oldest first. Whatever the
   * history, no id is added or removed and no title changes; a box that no
   * move names keeps its entry.
   */
  function ApplyMoves(boxes: map<string, Box>, moves: seq<Move>): (r: map<string, Box>)
    requires forall i :: 0 <= i < |moves| ==> moves[i].id in boxes
    ensures r.Keys == boxes.Keys
    ensures forall k :: k in boxes ==> r[k].title == boxes[k].title
    ensures forall k :: k in boxes && (forall i :: 0 <= i < |moves| ==> moves[i].id != k) ==> r[k] == boxes[k]
    decreases |moves|
  {
    if moves == [] then
      boxes
    else
      var last := moves[|moves| - 1];
      var before := ApplyMoves(boxes, moves[..|moves| - 1]);
      MergePosition(before, last.id, last.left, last.top)
  }

  /**
   * `boxes` is the initial map with every move of the history merged in,
   * oldest first; so the ids are {a, b} and every title is the initial one.
   */
  ghost predicate FromHistory(boxes: map<string, Box>, moves: seq<Move>)
    ensures FromHistory(boxes, moves) ==> boxes.Keys == {"a", "b"}
    ensures FromHistory(boxes, moves) ==>
      forall id :: id in boxes ==> boxes[id].title == InitialBoxes()[id].title
  {
    && (forall i :: 0 <= i < |moves| ==> moves[i].id in InitialBoxes())
    && boxes == ApplyMoves(InitialBoxes(), moves)
  }

  /** One more move is one more merge on top of the history so far. */
  lemma {:induction false} ApplyMovesAppend(boxes: map<string, Box>, moves: seq<Move>, m: Move)
    requires forall i :: 0 <= i < |moves| ==> moves[i].id in boxes
    requires m.id in boxes
    ensures forall i :: 0 <= i < |moves + [m]| ==> (moves + [m])[i].id in boxes
    ensures ApplyMoves(boxes, moves + [m]) == MergePosition(ApplyMoves(boxes, moves), m.id, m.left, m.top)
  {
    assert (moves + [m])[..|moves|] == moves;
  }

  /** After any history, a box stands where the LAST move naming it put it. */
  lemma {:induction false} ApplyMovesLastWins(boxes: map<string, Box>, moves: seq<Move>, j: nat)
    requires forall i :: 0 <= i < |moves| ==> moves[i].id in boxes
    requires j < |moves|
    requires forall i :: j < i < |moves| ==> moves[i].id != moves[j].id
    ensures ApplyMoves(boxes, moves)[moves[j].id].left == moves[j].left
    ensures ApplyMoves(boxes, moves)[moves[j].id].top == moves[j].top
  {
    var n := |moves| - 1;
    if j < n {
      ApplyMovesLastWins(boxes, moves[..n], j);
    }
  }

  /** Merging the same position twice gives the same map as merging it once. */
  lemma MergeIdempotent(boxes: map<string, Box>, id: string, left: int, top: int)
    requires id in boxes
    ensures MergePosition(MergePosition(boxes, id, left, top), id, left, top)
         == MergePosition(boxes, id, left, top)
  {
    var once := MergePosition(boxes, id, left, top);
    var twice := MergePosition(once, id, left, top);
    assert twice.Keys == once.Keys;
    assert forall k :: k in once ==> twice[k] == once[k];
  }

  /** Merging the position a box already has changes nothing. */
  lemma MergeCurrentPosition(boxes: map<string, Box>, id: string)
    requires id in boxes
    ensures MergePosition(boxes, id, boxes[id].left, boxes[id].top) == boxes
  {
    var r := MergePosition(boxes, id, boxes[id].left, boxes[id].top);
    assert r.Keys == boxes.Keys;
    assert forall k :: k in boxes ==> r[k] == boxes[k];
  }

  /**
   * The position the `drop` handler commits: the drag item's position plus the
   * pointer delta, rounded with `Math.round`, then snapped to the grid on each
   * axis when `snapToGrid` is set.
   */
  function DropPosition(item: DragItem, delta: Delta, snapToGrid: bool): (p: Position)
    ensures !snapToGrid ==>
      && item.left as real + delta.x - 0.5 < p.left as real <= item.left as real + delta.x + 0.5
      && item.top as real + delta.y - 0.5 < p.top as real <= item.top as real + delta.y + 0.5
    ensures snapToGrid ==> OnGrid(p.left) && OnGrid(p.top)
    ensures snapToGrid ==>
      && item.left as real + delta.x - 16.5 < p.left as real <= item.left as real + delta.x + 16.5
      && item.top as real + delta.y - 16.5 < p.top as real <= item.top as real + delta.y + 16.5
  {
    var left := Round(item.left as real + delta.x);
    var top := Round(item.top as real + delta.y);
    if snapToGrid then
      var snapped := SnapToGrid(left as real, top as real);
      Position(snapped.0, snapped.1)
    else
      Position(left, top)
  }

  /** With snapping on, the committed position is the grid line nearest the ROUNDED target. */
  lemma DropSnapsRoundedTarget(item: DragItem, delta: Delta)
    ensures var rounded := DropPosition(item, delta, false);
            DropPosition(item, delta, true) == Position(Snap(rounded.left as real), Snap(rounded.top as real))
  {
  }

  /**
   * The two roundings do not compose into one: a raw target of 15.5 rounds to
   * 16, which snaps to 32, although the grid line nearest 15.5 is 0.
   */
  lemma DropRoundsBeforeSnapping()
    ensures DropPosition(DragItem("a", 15, 0), Delta(0.5, 0.0), true).left == 32
    ensures Snap(15.5) == 0
  {
    RoundTiesUp(15);
    SnapTiesUp(16);
    SnapUnique(15.5, 0);
  }

  /** A drop with zero delta leaves a box where it is (snapping off). */
  lemma DropZeroDelta(item: DragItem)
    ensures DropPosition(item, Delta(0.0, 0.0), false) == Position(item.left, item.top)
  {
    RoundOfInteger(item.left);
    RoundOfInteger(item.top);
  }

  /** A drop with zero delta leaves a grid-aligned box where it is (snapping on). */
  lemma DropZeroDeltaOnGrid(item: DragItem)
    requires OnGrid(item.left) && OnGrid(item.top)
    ensures DropPosition(item, Delta(0.0, 0.0), true) == Position(item.left, item.top)
  {
    RoundOfInteger(item.left);
    RoundOfInteger(item.top);
    SnapFixesGrid(item.left);
    SnapFixesGrid(item.top);
  }

  /**
   * Box "a" at (80, 20) dragged by (3, 4) lands on (96, 32) with snapping and
   * on (83, 24) without; dragged by (0.4, 0.6) without snapping it lands on
   * (80, 21).
   */
  lemma DropExamples()
    ensures DropPosition(DragItem("a", 80, 20), Delta(3.0, 4.0), true) == Position(96, 32)
    ensures DropPosition(DragItem("a", 80, 20), Delta(3.0, 4.0), false) == Position(83, 24)
    ensures DropPosition(DragItem("a", 80, 20), Delta(0.4, 0.6), false) == Position(80, 21)
  {
    RoundOfInteger(83);
    RoundOfInteger(24);
    SnapUnique(83.0, 96);
    SnapUnique(24.0, 32);
    RoundUnique(80.4, 80);
    RoundUnique(20.6, 21);
  }
}
