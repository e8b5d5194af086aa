// Rounding to the nearest voxel and the clamps of the region-of-interest
// editor (`UpdateROI1` / `UpdateROI2`, src/RView.cc 635-727). The corners are
// clamped in target voxel coordinates, axis by axis, and compared after
// rounding.
module Regions {

  /** C's `round`: to the nearest integer, halves away from zero. */
  function Round(x: real): (n: int)
    ensures x >= 0.0 ==> n >= 0
    ensures x - 0.5 <= n as real <= x + 0.5
  {
    if x >= 0.0 then (x + 0.5).Floor else -((-x + 0.5).Floor)
  }

  /** A whole number rounds to itself. */
  lemma RoundWhole(n: int)
    ensures Round(n as real) == n
  {
  }

  /** Rounding never decreases as its argument grows. */
  lemma RoundMonotone(x: real, y: real)
    requires x <= y
    ensures Round(x) <= Round(y)
  {
  }

  /**
   * One axis of the first corner: below voxel 0 it is raised to 0, past the
   * rounded second corner it is lowered to that voxel.
   */
  function ClampFirst(v: real, other: real): real
  {
    var v1 := if Round(v) < 0 then 0.0 else v;
    if Round(v1) > Round(other) then Round(other) as real else v1
  }

  /**
   * One axis of the second corner: at or past the image size it is lowered to
   * the last voxel, below the rounded first corner it is raised to the first
   * corner itself.
   */
  function ClampSecond(v: real, other: real, size: int): real
  {
    var v1 := if Round(v) >= size then (size - 1) as real else v;
    if Round(v1) < Round(other) then other else v1
  }

  /**
   * The first corner ends at or before the second, and inside the image when
   * the second corner is; a coordinate already in range is kept as it is.
   */
  lemma ClampFirstOrders(v: real, other: real)
    ensures Round(ClampFirst(v, other)) <= Round(other)
    ensures Round(other) >= 0 ==> Round(ClampFirst(v, other)) >= 0
    ensures 0 <= Round(v) <= Round(other) ==> ClampFirst(v, other) == v
  {
    RoundWhole(0);
    RoundWhole(Round(other));
  }

  /**
   * The second corner ends at or after the first, and inside the image when
   * the first corner is; a coordinate already in range is kept as it is.
   */
  lemma ClampSecondOrders(v: real, other: real, size: int)
    ensures Round(ClampSecond(v, other, size)) >= Round(other)
    ensures Round(other) <= size - 1 ==> Round(ClampSecond(v, other, size)) <= size - 1
    ensures Round(other) <= Round(v) < size ==> ClampSecond(v, other, size) == v
  {
    RoundWhole(size - 1);
  }
}
