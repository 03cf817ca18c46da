/** A point: three coordinates and an open map from attribute names to numbers. */
module Points {
  import opened Wrappers

  datatype Point = Point(x: real, y: real, z: real, attributes: map<string, real>) {

    /** The value stored under `key`, if any. */
    function GetAttribute(key: string): (r: Option<real>)
      ensures r.Some? <==> key in attributes
      ensures r.Some? ==> r.value == attributes[key]
    {
      if key in attributes then Some(attributes[key]) else None
    }

    /**
     * Adds or overwrites one attribute. The source updates the map in place
     * through `&mut self`; a point is a value, so the updated point is returned.
     */
    function SetAttribute(key: string, value: real): (p: Point)
      ensures p.GetAttribute(key) == Some(value)
      ensures forall k :: k != key ==> p.GetAttribute(k) == GetAttribute(k)
      ensures p.attributes.Keys == attributes.Keys + {key}
      ensures p.x == x && p.y == y && p.z == z
    {
      this.(attributes := attributes[key := value])
    }
  }

  /** `Point::new`: the given coordinates and no attributes. */
  function New(x: real, y: real, z: real): (p: Point)
    ensures p.x == x && p.y == y && p.z == z
    ensures forall k :: p.GetAttribute(k).None?
  {
    Point(x, y, z, map[])
  }

  /** `Point::with_attributes`: the given coordinates and the given map, unchanged. */
  function WithAttributes(x: real, y: real, z: real, attributes: map<string, real>): (p: Point)
    ensures p.x == x && p.y == y && p.z == z
    ensures forall k :: p.GetAttribute(k) == (if k in attributes then Some(attributes[k]) else None)
  {
    Point(x, y, z, attributes)
  }

  /** `Point::default`: the origin with no attributes. */
  function Default(): (p: Point)
    ensures p.x == 0.0 && p.y == 0.0 && p.z == 0.0
    ensures forall k :: p.GetAttribute(k).None?
  {
    New(0.0, 0.0, 0.0)
  }

  /** Setting the same key twice keeps only the second value. */
  lemma SetAttributeTwice(p: Point, key: string, v1: real, v2: real)
    ensures p.SetAttribute(key, v1).SetAttribute(key, v2) == p.SetAttribute(key, v2)
  {
    assert p.SetAttribute(key, v1).SetAttribute(key, v2).attributes == p.SetAttribute(key, v2).attributes;
  }

  /** Setting two different keys gives the same point in either order. */
  lemma SetAttributeCommutes(p: Point, k1: string, v1: real, k2: string, v2: real)
    requires k1 != k2
    ensures p.SetAttribute(k1, v1).SetAttribute(k2, v2) == p.SetAttribute(k2, v2).SetAttribute(k1, v1)
  {
    assert p.SetAttribute(k1, v1).SetAttribute(k2, v2).attributes
        == p.SetAttribute(k2, v2).SetAttribute(k1, v1).attributes;
  }

  /** Setting a key to the value it already holds changes nothing. */
  lemma SetAttributeExisting(p: Point, key: string)
    requires p.GetAttribute(key).Some?
    ensures p.SetAttribute(key, p.GetAttribute(key).value) == p
  {
    assert p.SetAttribute(key, p.GetAttribute(key).value).attributes == p.attributes;
  }
}
