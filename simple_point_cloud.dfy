/** The row layout: one Point record per element, held in a growable vector. */
module SimplePointClouds {
  import opened Wrappers
  import opened Points
  import opened PointClouds

  /**
   * The per-point queries the row layout calls (`is_3d`, `has_color`, and
   * whether `intensity`, `ring_id`, `time_offset` are set). Point does not
   * define them, so a caller supplies them.
   */
  datatype PointProbes = PointProbes(
    is3d: Point -> bool,
    hasColor: Point -> bool,
    hasIntensity: Point -> bool,
    hasRingId: Point -> bool,
    hasTimeOffset: Point -> bool)

  /** `points.iter().any(probe)`. */
  function AnyPoint(points: seq<Point>, probe: Point -> bool): (r: bool)
    ensures r <==> exists i :: 0 <= i < |points| && probe(points[i])
  {
    if points == [] then false
    else if probe(points[0]) then true
    else
      var rest := AnyPoint(points[1..], probe);
      assert forall i :: 1 <= i < |points| ==> points[i] == points[1..][i - 1];
      rest
  }

  class SimplePointCloud {
    var points: seq<Point>

    /** `new()`: no points. */
    constructor ()
      ensures points == []
    {
      points := [];
    }

    /** `with_capacity(capacity)`: no points; the capacity is only an allocation hint. */
    constructor WithCapacity(capacity: nat)
      ensures points == []
    {
      points := [];
    }

    /** `points()` and `points_vec()`: the stored points, in order. */
    function Points(): (s: seq<Point>)
      reads this
      ensures |s| == NumPoints(points) && forall i :: 0 <= i < |s| ==> At(points, i) == Some(s[i])
    {
      points
    }

    /** `add_point(point)`: appends the point at the end. */
    method AddPoint(point: Point)
      modifies this
      ensures points == old(points) + [point]
    {
      points := points + [point];
    }

    /** `clear()`: removes every point. */
    method Clear()
      modifies this
      ensures points == []
    {
      points := [];
    }

    /** `reserve(additional)`: an allocation hint; the points are untouched. */
    method Reserve(additional: nat)
      modifies this
      ensures points == old(points)
    {
    }

    /**
     * The trait's `set(index, point)`: through `at_mut`, overwrites the point
     * at `index`, or reports the index when it is past the end.
     */
    method Set(index: nat, point: Point) returns (r: Result<(), IndexError>)
      modifies this
      ensures index < |old(points)| <==> r.Ok?
      ensures r.Ok? ==> points == old(points)[index := point]
      ensures r.Err? ==> r.error == IndexOutOfBounds(index) && points == old(points)
    {
      var slot := AtMut(points, index);
      if slot.Some? {
        points := points[slot.value := point];
        r := Ok(());
      } else {
        r := Err(IndexOutOfBounds(index));
      }
    }

    /** `is_3d()`: some stored point is three-dimensional. */
    function Is3d(probes: PointProbes): (r: bool)
      reads this
      ensures r <==> exists i :: 0 <= i < |points| && probes.is3d(points[i])
    {
      AnyPoint(points, probes.is3d)
    }

    /** `has_color()`: some stored point carries a color. */
    function HasColor(probes: PointProbes): (r: bool)
      reads this
      ensures r <==> exists i :: 0 <= i < |points| && probes.hasColor(points[i])
    {
      AnyPoint(points, probes.hasColor)
    }

    /** `has_intensity()`: some stored point carries an intensity. */
    function HasIntensity(probes: PointProbes): (r: bool)
      reads this
      ensures r <==> exists i :: 0 <= i < |points| && probes.hasIntensity(points[i])
    {
      AnyPoint(points, probes.hasIntensity)
    }

    /**
     * `has_attribute(name)`: x and y always; z, the color channels, intensity,
     * ring_id and time_offset when some point carries them; nothing else.
     */
    function HasAttribute(attribute: string, probes: PointProbes): (r: bool)
      reads this
      ensures attribute == "x" || attribute == "y" ==> r
      ensures attribute == "z" ==> r == Is3d(probes)
      ensures attribute in {"r", "g", "b", "a"} ==> r == HasColor(probes)
      ensures attribute == "intensity" ==> r == HasIntensity(probes)
      ensures attribute == "ring_id" ==> (r <==> exists i :: 0 <= i < |points| && probes.hasRingId(points[i]))
      ensures attribute == "time_offset" ==> (r <==> exists i :: 0 <= i < |points| && probes.hasTimeOffset(points[i]))
      ensures points == [] ==> (r <==> attribute == "x" || attribute == "y")
      ensures attribute !in {"x", "y", "z", "r", "g", "b", "a", "intensity", "ring_id", "time_offset"} ==> !r
    {
      match attribute
      case "x" => true
      case "y" => true
      case "z" => Is3d(probes)
      case "r" => HasColor(probes)
      case "g" => HasColor(probes)
      case "b" => HasColor(probes)
      case "a" => HasColor(probes)
      case "intensity" => HasIntensity(probes)
      case "ring_id" => AnyPoint(points, probes.hasRingId)
      case "time_offset" => AnyPoint(points, probes.hasTimeOffset)
      case _ => false
    }

    /**
     * `transform(a2b)`: a new cloud holding every point mapped by
     * `transformPoint` (the source's `p.transform(a2b)`), in order.
     */
    method Transform(transformPoint: Point -> Point) returns (out: SimplePointCloud)
      ensures fresh(out)
      ensures out.points == Transformed(points, transformPoint)
    {
      out := new SimplePointCloud.WithCapacity(|points|);
      var i := 0;
      while i < |points|
        invariant 0 <= i <= |points|
        invariant out.points == Transformed(points[..i], transformPoint)
      {
        out.AddPoint(transformPoint(points[i]));
        i := i + 1;
      }
      assert points[..i] == points;
    }

    /** `transform_inplace(a2b)`: every stored point replaced by its image, in place. */
    method TransformInPlace(transformPoint: Point -> Point)
      modifies this
      ensures points == Transformed(old(points), transformPoint)
    {
      var i := 0;
      while i < |points|
        invariant 0 <= i <= |points| == |old(points)|
        invariant forall j :: 0 <= j < i ==> points[j] == transformPoint(old(points)[j])
        invariant forall j :: i <= j < |points| ==> points[j] == old(points)[j]
      {
        points := points[i := transformPoint(points[i])];
        i := i + 1;
      }
    }
  }
}
