/**
 * The custom drag layer's preview position (`getItemStyles`): where the
 * dragged box's preview is drawn, or that it is hidden.
 */
module DragLayer {
  import opened Geometry

  datatype Option<T> = None | Some(value: T)

  /** A client offset reported by the drag monitor. */
  datatype Offset = Offset(x: real, y: real)

  /** The preview's style: hidden, or translated to a point. */
  datatype ItemStyle = Hidden | Translate(x: real, y: real)

  /** A real difference that is a whole number of grid cells. */
  predicate GridStep(d: real) {
    d == d.Floor as real && OnGrid(d.Floor)
  }

  /**
   * `getItemStyles(initialOffset, currentOffset, isSnapToGrid)`: hidden while
   * either offset is unknown; otherwise the current offset, or, with snapping,
   * the current offset moved to the nearest whole number of grid cells away
   * from the initial offset.
   */
  function GetItemStyles(initialOffset: Option<Offset>, currentOffset: Option<Offset>, isSnapToGrid: bool): (s: ItemStyle)
    ensures s.Hidden? <==> initialOffset.None? || currentOffset.None?
    ensures initialOffset.Some? && currentOffset.Some? && !isSnapToGrid ==>
      s == Translate(currentOffset.value.x, currentOffset.value.y)
    ensures initialOffset.Some? && currentOffset.Some? && isSnapToGrid ==>
      && s.Translate?
      && GridStep(s.x - initialOffset.value.x) && GridStep(s.y - initialOffset.value.y)
      && currentOffset.value.x - 16.0 < s.x <= currentOffset.value.x + 16.0
      && currentOffset.value.y - 16.0 < s.y <= currentOffset.value.y + 16.0
  {
    if initialOffset.None? || currentOffset.None? then
      Hidden
    else
      var x, y := currentOffset.value.x, currentOffset.value.y;
      if isSnapToGrid then
        var snapped := SnapToGrid(x - initialOffset.value.x, y - initialOffset.value.y);
        Translate(snapped.0 as real + initialOffset.value.x, snapped.1 as real + initialOffset.value.y)
      else
        Translate(x, y)
  }

  /** The snapped preview is the ONLY point satisfying that contract on each axis. */
  lemma SnappedPreviewUnique(initial: Offset, current: Offset, x: real, y: real)
    requires GridStep(x - initial.x) && GridStep(y - initial.y)
    requires current.x - 16.0 < x <= current.x + 16.0
    requires current.y - 16.0 < y <= current.y + 16.0
    ensures GetItemStyles(Some(initial), Some(current), true) == Translate(x, y)
  {
    SnapUnique(current.x - initial.x, (x - initial.x).Floor);
    SnapUnique(current.y - initial.y, (y - initial.y).Floor);
  }

  /** When the pointer is already a whole number of cells from where it started, snapping changes nothing. */
  lemma PreviewAlignedUnchanged(initial: Offset, current: Offset)
    requires GridStep(current.x - initial.x) && GridStep(current.y - initial.y)
    ensures GetItemStyles(Some(initial), Some(current), true)
         == GetItemStyles(Some(initial), Some(current), false)
  {
    SnapFixesGrid((current.x - initial.x).Floor);
    SnapFixesGrid((current.y - initial.y).Floor);
  }

  /** Re-snapping a snapped preview (from the same initial offset) leaves it where it is. */
  lemma PreviewSnapIdempotent(initial: Offset, current: Offset)
    ensures var s := GetItemStyles(Some(initial), Some(current), true);
            GetItemStyles(Some(initial), Some(Offset(s.x, s.y)), true) == s
  {
    var s := GetItemStyles(Some(initial), Some(current), true);
    PreviewAlignedUnchanged(initial, Offset(s.x, s.y));
  }
}
