/**
 * Rounding and grid snapping of pointer coordinates.
 *
 * Pointer coordinates are treated as exact reals. JavaScript's `Math.round`
 * returns the nearest integer and breaks ties toward +infinity; `doSnapToGrid`
 * rounds each axis independently to the nearest multiple of the 32-pixel cell.
 */
module Geometry {

  /** Side of one grid cell, in pixels. */
  const CellSize: int := 32

  /** A coordinate that lies on a grid line. */
  predicate OnGrid(c: int) {
    c % CellSize == 0
  }

  /** `Math.round` on an exact real: the unique integer in (r - 1/2, r + 1/2]. */
  function Round(r: real): (n: int)
    ensures r - 0.5 < n as real <= r + 0.5
  {
    (r + 0.5).Floor
  }

  /** The window of `Round` has exactly one integer in it. */
  lemma RoundUnique(r: real, n: int)
    requires r - 0.5 < n as real <= r + 0.5
    ensures Round(r) == n
  {
    var m := Round(r);
    assert -1.0 < (n - m) as real < 1.0;
  }

  /** An integer is its own rounding: `Math.round` leaves integer coordinates alone. */
  lemma RoundOfInteger(n: int)
    ensures Round(n as real) == n
  {
    RoundUnique(n as real, n);
  }

  /** Ties go up: k + 1/2 rounds to k + 1, as `Math.round` does. */
  lemma RoundTiesUp(k: int)
    ensures Round(k as real + 0.5) == k + 1
  {
    RoundUnique(k as real + 0.5, k + 1);
  }

  /**
   * One axis of `doSnapToGrid`: `Math.round(c / 32) * 32`. The result is the
   * grid line in the half-open window (c - 16, c + 16], so it is never more
   * than half a cell away and a point exactly between two lines goes to the
   * upper one.
   */
  function Snap(c: real): (s: int)
    ensures OnGrid(s)
    ensures c - 16.0 < s as real <= c + 16.0
  {
    Round(c / CellSize as real) * CellSize
  }

  /** Only one grid line lies in the window (c - 16, c + 16]: `Snap` picks the nearest line. */
  lemma SnapUnique(c: real, s: int)
    requires OnGrid(s)
    requires c - 16.0 < s as real <= c + 16.0
    ensures Snap(c) == s
  {
    var t := Snap(c);
    var a, b := s / CellSize, t / CellSize;
    assert s == a * CellSize;
    assert t == b * CellSize;
    assert -32.0 < (s - t) as real < 32.0;
    assert -1 < a - b < 1;
  }

  /** A coordinate already on the grid is left where it is. */
  lemma SnapFixesGrid(s: int)
    requires OnGrid(s)
    ensures Snap(s as real) == s
  {
    SnapUnique(s as real, s);
  }

  /** Snapping twice is snapping once. */
  lemma SnapIdempotent(c: real)
    ensures Snap(Snap(c) as real) == Snap(c)
  {
    SnapFixesGrid(Snap(c));
  }

  /** On an integer coordinate, snapping is the integer formula ((x + 16) div 32) * 32. */
  lemma SnapOfInteger(x: int)
    ensures Snap(x as real) == ((x + 16) / CellSize) * CellSize
  {
    var q := (x + 16) / CellSize;
    assert q * CellSize <= x + 16 < q * CellSize + CellSize;
    SnapUnique(x as real, q * CellSize);
  }

  /** A coordinate exactly between two grid lines goes to the upper one. */
  lemma SnapTiesUp(x: int)
    requires x % CellSize == 16
    ensures Snap(x as real) == x + 16
  {
    SnapUnique(x as real, x + 16);
  }

  /**
   * `doSnapToGrid(x, y)`: both axes snapped independently, so the x result
   * depends on x alone and the y result on y alone; each is the grid line
   * nearest its own input.
   */
  function SnapToGrid(x: real, y: real): (p: (int, int))
    ensures OnGrid(p.0) && x - 16.0 < p.0 as real <= x + 16.0
    ensures OnGrid(p.1) && y - 16.0 < p.1 as real <= y + 16.0
  {
    (Snap(x), Snap(y))
  }
}
