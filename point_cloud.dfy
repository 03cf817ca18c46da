/**
 * The default methods every point cloud inherits, stated over the sequence
 * of points the cloud exposes (`points()`).
 */
module PointClouds {
  import opened Wrappers
  import opened Points

  /** `format!("Index {} out of bounds", index)`: the index that was refused. */
  datatype IndexError = IndexOutOfBounds(index: nat)

  /** `at(index)`: the point at `index`, or nothing past the end. */
  function At(points: seq<Point>, index: nat): (r: Option<Point>)
    ensures r.None? <==> index >= |points|
    ensures r.Some? ==> r.value == points[index]
  {
    if index < |points| then Some(points[index]) else None
  }

  /**
   * `at_mut(index)`: a handle on the slot at `index` through which the point
   * can be overwritten, or nothing past the end. The handle is the slot's index.
   */
  function AtMut(points: seq<Point>, index: nat): (slot: Option<nat>)
    ensures slot.None? <==> index >= |points|
    ensures slot.Some? ==> slot.value == index && slot.value < |points|
  {
    if index < |points| then Some(index) else None
  }

  /** `num_points()`: the length of the point sequence. */
  function NumPoints(points: seq<Point>): (n: nat)
    ensures n == 0 <==> points == []
    ensures forall i: nat :: i < n <==> At(points, i).Some?
  {
    |points|
  }

  /** `is_empty()`: true exactly when there are no points. */
  function IsEmpty(points: seq<Point>): (r: bool)
    ensures r <==> NumPoints(points) == 0
    ensures r <==> At(points, 0).None?
  {
    NumPoints(points) == 0
  }

  /** What `transform` and `transform_inplace` produce: every point mapped, in order. */
  function Transformed(points: seq<Point>, transformPoint: Point -> Point): (r: seq<Point>)
    ensures |r| == |points|
    ensures forall i :: 0 <= i < |points| ==> r[i] == transformPoint(points[i])
  {
    seq(|points|, i requires 0 <= i < |points| => transformPoint(points[i]))
  }
}
