/**
 * The column layout: one array per attribute. Positions are always present
 * (width 2 or 3); colors (width 3 or 4), intensities, classifications and
 * named extra columns (width 1) are optional. A capacity counter is kept
 * beside the columns.
 */
module CompactPointClouds {
  import opened Wrappers
  import opened NdArray

  /** The names `has_attribute` dispatches on before it looks at the extra columns. */
  const ReservedNames: set<string> := {"x", "y", "z", "r", "g", "b", "a", "intensity", "classification"}

  /** Capacity after `reserve(additional)`: raised to len + additional when that is larger. */
  function ReservedCapacity(capacity: nat, len: nat, additional: nat): (r: nat)
    ensures r >= capacity && r >= len + additional
    ensures r == capacity || r == len + additional
  {
    if len + additional > capacity then len + additional else capacity
  }

  /**
   * Capacity after `_auto_expand_capacity`: unchanged when auto-expansion is
   * off; from zero it bootstraps to 16 more than the length; once the length
   * has reached the capacity it grows by the old capacity.
   */
  function AutoExpandedCapacity(autoExpand: bool, capacity: nat, len: nat): (r: nat)
    ensures !autoExpand ==> r == capacity
    ensures autoExpand && capacity == 0 ==> r == len + 16
    ensures autoExpand && 0 < capacity <= len ==> r == len + capacity
    ensures autoExpand && len < capacity ==> r == capacity
    ensures autoExpand ==> r > len
    ensures autoExpand && 0 < capacity == len ==> r == 2 * capacity
  {
    if !autoExpand then capacity
    else if capacity == 0 then ReservedCapacity(capacity, len, 16)
    else if len >= capacity then ReservedCapacity(capacity, len, capacity)
    else capacity
  }

  /**
   * The fixed-order head of `attribute_names`: x, y, then z for 3-wide
   * positions, r, g, b for 3- or 4-wide colors and a for 4-wide ones, then
   * intensity and classification when those columns are present.
   */
  function ListedSchemaNames(positionsWidth: nat, colorWidth: Option<nat>,
                             hasIntensity: bool, hasClassification: bool): (names: seq<string>)
    ensures |names| >= 2 && names[0] == "x" && names[1] == "y"
    ensures forall k :: k in names ==> k in ReservedNames
    ensures "z" in names <==> positionsWidth == 3
    ensures "r" in names <==> colorWidth == Some(3) || colorWidth == Some(4)
    ensures ("g" in names <==> "r" in names) && ("b" in names <==> "r" in names)
    ensures "a" in names <==> colorWidth == Some(4)
    ensures "intensity" in names <==> hasIntensity
    ensures "classification" in names <==> hasClassification
  {
    var rgb := colorWidth == Some(3) || colorWidth == Some(4);
    var withXY: seq<string> := ["x", "y"];
    var withZ := if positionsWidth == 3 then withXY + ["z"] else withXY;
    var withRGB := if rgb then withZ + ["r", "g", "b"] else withZ;
    var withAlpha := if colorWidth == Some(4) then withRGB + ["a"] else withRGB;
    var withIntensity := if hasIntensity then withAlpha + ["intensity"] else withAlpha;
    assert forall k :: k in withIntensity ==> k in ReservedNames;
    if hasClassification then withIntensity + ["classification"] else withIntensity
  }

  /** The position of a schema name in the order `attribute_names` pushes them; 9 for any other name. */
  function SchemaRank(name: string): (k: nat)
    ensures k <= 9
  {
    if name == "x" then 0
    else if name == "y" then 1
    else if name == "z" then 2
    else if name == "r" then 3
    else if name == "g" then 4
    else if name == "b" then 5
    else if name == "a" then 6
    else if name == "intensity" then 7
    else if name == "classification" then 8
    else 9
  }

  /** The ranks of the nine schema names. */
  lemma SchemaRanks()
    ensures SchemaRank("x") == 0 && SchemaRank("y") == 1 && SchemaRank("z") == 2
    ensures SchemaRank("r") == 3 && SchemaRank("g") == 4 && SchemaRank("b") == 5 && SchemaRank("a") == 6
    ensures SchemaRank("intensity") == 7 && SchemaRank("classification") == 8
  {
  }

  /** The names appear in schema order, each at most once, and all rank below `bound`. */
  ghost predicate RankedBelow(s: seq<string>, bound: nat) {
    && (forall i, j :: 0 <= i < j < |s| ==> SchemaRank(s[i]) < SchemaRank(s[j]))
    && (forall i :: 0 <= i < |s| ==> SchemaRank(s[i]) < bound)
  }

  /** `extra` is in schema order, and every rank in it is at least `bound` and below `newBound`. */
  ghost predicate RanksWithin(extra: seq<string>, bound: nat, newBound: nat) {
    && bound <= newBound
    && RankedBelow(extra, newBound)
    && (forall i :: 0 <= i < |extra| ==> bound <= SchemaRank(extra[i]))
  }

  /** The names each conditional push of the schema head appends, with their ranks. */
  lemma SchemaStagesRanked()
    ensures RankedBelow(["x", "y"], 2)
    ensures RanksWithin(["z"], 2, 3)
    ensures RanksWithin(["r", "g", "b"], 3, 6)
    ensures RanksWithin(["a"], 6, 7)
    ensures RanksWithin(["intensity"], 7, 8)
    ensures RanksWithin(["classification"], 8, 9)
  {
    SchemaRanks();
  }

  /**
   * One conditional stage of the schema pushes: appending names that rank at
   * or above `bound`, themselves in schema order below `newBound`, keeps the
   * list in schema order below `newBound`.
   */
  lemma PushStageRanked(s: seq<string>, push: bool, extra: seq<string>, bound: nat, newBound: nat)
    requires RankedBelow(s, bound) && RanksWithin(extra, bound, newBound)
    ensures RankedBelow(if push then s + extra else s, newBound)
  {
    if push {
      var t := s + extra;
      forall i, j | 0 <= i < j < |t|
        ensures SchemaRank(t[i]) < SchemaRank(t[j])
      {
        if j < |s| {
          assert t[i] == s[i] && t[j] == s[j];
        } else if i < |s| {
          assert t[i] == s[i] && t[j] == extra[j - |s|];
        } else {
          assert t[i] == extra[i - |s|] && t[j] == extra[j - |s|];
        }
      }
      forall i | 0 <= i < |t|
        ensures SchemaRank(t[i]) < newBound
      {
        if i < |s| {
          assert t[i] == s[i];
        } else {
          assert t[i] == extra[i - |s|];
        }
      }
    }
  }

  /** A list in strict schema order names nothing twice. */
  lemma RankedDistinct(s: seq<string>, bound: nat)
    requires RankedBelow(s, bound)
    ensures forall i, j :: 0 <= i < j < |s| ==> s[i] != s[j]
  {
    forall i, j | 0 <= i < j < |s|
      ensures s[i] != s[j]
    {
      assert SchemaRank(s[i]) < SchemaRank(s[j]);
    }
  }

  /** Each conditional push of the schema head keeps it in schema order. */
  lemma ListedSchemaNamesRanked(positionsWidth: nat, colorWidth: Option<nat>,
                                hasIntensity: bool, hasClassification: bool)
    ensures RankedBelow(ListedSchemaNames(positionsWidth, colorWidth, hasIntensity, hasClassification), 9)
  {
    SchemaStagesRanked();
    var rgb := colorWidth == Some(3) || colorWidth == Some(4);
    var withXY: seq<string> := ["x", "y"];
    var withZ := if positionsWidth == 3 then withXY + ["z"] else withXY;
    PushStageRanked(withXY, positionsWidth == 3, ["z"], 2, 3);
    var withRGB := if rgb then withZ + ["r", "g", "b"] else withZ;
    PushStageRanked(withZ, rgb, ["r", "g", "b"], 3, 6);
    var withAlpha := if colorWidth == Some(4) then withRGB + ["a"] else withRGB;
    PushStageRanked(withRGB, colorWidth == Some(4), ["a"], 6, 7);
    var withIntensity := if hasIntensity then withAlpha + ["intensity"] else withAlpha;
    PushStageRanked(withAlpha, hasIntensity, ["intensity"], 7, 8);
    PushStageRanked(withIntensity, hasClassification, ["classification"], 8, 9);
  }

  /**
   * The schema head of `attribute_names` is in the fixed order x, y, z, r, g,
   * b, a, intensity, classification, with no name twice.
   */
  lemma SchemaNamesInOrder(positionsWidth: nat, colorWidth: Option<nat>,
                           hasIntensity: bool, hasClassification: bool)
    ensures var names := ListedSchemaNames(positionsWidth, colorWidth, hasIntensity, hasClassification);
      forall i, j :: 0 <= i < j < |names| ==> SchemaRank(names[i]) < SchemaRank(names[j])
    ensures var names := ListedSchemaNames(positionsWidth, colorWidth, hasIntensity, hasClassification);
      forall i, j :: 0 <= i < j < |names| ==> names[i] != names[j]
  {
    var names := ListedSchemaNames(positionsWidth, colorWidth, hasIntensity, hasClassification);
    ListedSchemaNamesRanked(positionsWidth, colorWidth, hasIntensity, hasClassification);
    RankedDistinct(names, 9);
  }

  /** `s` lists every element of `keys` exactly once, in some order. */
  ghost predicate ListsOnce(s: seq<string>, keys: set<string>) {
    && (forall i, j :: 0 <= i < j < |s| ==> s[i] != s[j])
    && (forall k :: k in s <==> k in keys)
  }

  /** A column of n rows and width 1. */
  predicate IsColumnOf(a: Array2, n: nat) {
    a.NRows() == n && a.ncols == 1
  }

  /** The first pushes of `attribute_names`: the schema names, in their fixed order. */
  method PushSchemaNames(positionsWidth: nat, colorWidth: Option<nat>,
                         hasIntensity: bool, hasClassification: bool) returns (names: seq<string>)
    ensures names == ListedSchemaNames(positionsWidth, colorWidth, hasIntensity, hasClassification)
  {
    names := ["x", "y"];
    if positionsWidth == 3 {
      names := names + ["z"];
    }
    if colorWidth.Some? {
      var width := colorWidth.value;
      if width == 3 || width == 4 {
        names := names + ["r", "g", "b"];
        if width == 4 {
          names := names + ["a"];
        }
      }
    }
    if hasIntensity {
      names := names + ["intensity"];
    }
    if hasClassification {
      names := names + ["classification"];
    }
  }

  /** The loop of `attribute_names` over the extra columns: each name pushed once, in iteration order. */
  method ListExtraNames(extras: map<string, Array2>) returns (names: seq<string>)
    ensures ListsOnce(names, extras.Keys)
  {
    names := [];
    var pending := extras.Keys;
    while pending != {}
      invariant pending <= extras.Keys
      invariant ListsOnce(names, extras.Keys - pending)
      decreases pending
    {
      var key :| key in pending;
      names := names + [key];
      pending := pending - {key};
    }
  }

  /** The loop of `clear` over the extra columns: each one replaced by an empty column of width 1. */
  method EmptyExtraColumns(extras: map<string, Array2>) returns (cleared: map<string, Array2>)
    ensures cleared.Keys == extras.Keys
    ensures forall k :: k in cleared ==> cleared[k] == Empty(1)
  {
    cleared := extras;
    var pending := extras.Keys;
    while pending != {}
      invariant pending <= cleared.Keys == extras.Keys
      invariant forall k :: k in cleared && k !in pending ==> cleared[k] == Empty(1)
      decreases pending
    {
      var key :| key in pending;
      cleared := cleared[key := Empty(1)];
      pending := pending - {key};
    }
  }

  class CompactPointCloud {
    var positions: Array2
    var colors: Option<Array2>
    var intensities: Option<Array2>
    var classifications: Option<Array2>
    var extraAttributes: Option<map<string, Array2>>
    var capacity: nat
    var isAutoExpandCapacity: bool

    /** `new()` and `Default`: no points, 3-D positions, no optional column, capacity 0, auto-expansion on. */
    constructor ()
      ensures positions == Empty(3)
      ensures colors.None? && intensities.None? && classifications.None? && extraAttributes.None?
      ensures capacity == 0 && isAutoExpandCapacity
      ensures Len() == 0 && Is3d() && SchemaNames() == ["x", "y", "z"] && ExtraKeys() == {}
      ensures Rectangular() && WellShaped()
    {
      positions := Empty(3);
      colors := None;
      intensities := None;
      classifications := None;
      extraAttributes := None;
      capacity := 0;
      isAutoExpandCapacity := true;
    }

    /** `with_capacity(n)`: the default cloud with capacity exactly n. */
    constructor WithCapacity(n: nat)
      ensures positions == Empty(3)
      ensures colors.None? && intensities.None? && classifications.None? && extraAttributes.None?
      ensures capacity == n && isAutoExpandCapacity
      ensures Rectangular() && WellShaped()
    {
      positions := Empty(3);
      colors := None;
      intensities := None;
      classifications := None;
      extraAttributes := None;
      capacity := 0;
      isAutoExpandCapacity := true;
      new;
      Reserve(n);
    }

    /** `len()`: the number of rows of positions, which every present column shares when the cloud is valid. */
    function Len(): (n: nat)
      reads this
      ensures WellShaped() ==> EveryColumnHasRows(n)
    {
      positions.NRows()
    }

    /** Every present column, positions included, has exactly n rows. */
    predicate EveryColumnHasRows(n: nat)
      reads this
    {
      && positions.NRows() == n
      && (colors.Some? ==> colors.value.NRows() == n)
      && (intensities.Some? ==> intensities.value.NRows() == n)
      && (classifications.Some? ==> classifications.value.NRows() == n)
      && (extraAttributes.Some? ==> forall k :: k in extraAttributes.value ==> extraAttributes.value[k].NRows() == n)
    }

    /** `is_empty()`: no points, so on a valid cloud no present column holds a row. */
    function IsEmpty(): (r: bool)
      reads this
      ensures r <==> Len() == 0
      ensures WellShaped() ==> (r <==> EveryColumnHasRows(0))
    {
      Len() == 0
    }

    /** `capacity()`: the capacity counter, which is kept apart from the columns. */
    function Capacity(): (r: nat)
      reads this
      ensures r == capacity
    {
      capacity
    }

    /** `is_3d()`: the positions are three columns wide. */
    function Is3d(): (r: bool)
      reads this
      ensures r ==> HasAttribute("z")
      ensures r <==> "z" in SchemaNames()
      ensures ExtraKeys() !! ReservedNames ==> (r <==> "z" in AttributeNameSet())
    {
      positions.ncols == 3
    }

    /** `has_color()`: the color column is present. */
    function HasColor(): (r: bool)
      reads this
      ensures r <==> HasAttribute("r") && HasAttribute("g") && HasAttribute("b")
    {
      colors.Some?
    }

    /** `has_intensity()`: the intensity column is present. */
    function HasIntensity(): (r: bool)
      reads this
      ensures r <==> HasAttribute("intensity")
      ensures r <==> "intensity" in SchemaNames()
      ensures ExtraKeys() !! ReservedNames ==> (r <==> "intensity" in AttributeNameSet())
    {
      intensities.Some?
    }

    /** `has_classification()`: the classification column is present. */
    function HasClassification(): (r: bool)
      reads this
      ensures r <==> HasAttribute("classification")
      ensures r <==> "classification" in SchemaNames()
      ensures ExtraKeys() !! ReservedNames ==> (r <==> "classification" in AttributeNameSet())
    {
      classifications.Some?
    }

    /** The names of the extra columns (none when the extra map is absent). */
    function ExtraKeys(): (keys: set<string>)
      reads this
      ensures extraAttributes.Some? ==> keys == extraAttributes.value.Keys
      ensures extraAttributes.None? ==> keys == {}
    {
      if extraAttributes.Some? then extraAttributes.value.Keys else {}
    }

    /**
     * What ndarray guarantees of every array and `is_valid` therefore does not
     * check: each row of each present column is as wide as the column.
     */
    ghost predicate Rectangular()
      reads this
    {
      && positions.Shaped()
      && (colors.Some? ==> colors.value.Shaped())
      && (intensities.Some? ==> intensities.value.Shaped())
      && (classifications.Some? ==> classifications.value.Shaped())
      && (extraAttributes.Some? ==> forall k :: k in extraAttributes.value ==> extraAttributes.value[k].Shaped())
    }

    /**
     * The shape invariant that `is_valid` checks: positions 2 or 3 wide;
     * colors, if present, 3 or 4 wide with one row per point; intensities,
     * classifications and every extra column, if present, one row per point
     * and one wide.
     */
    predicate WellShaped()
      reads this
    {
      var n := positions.NRows();
      && (positions.ncols == 2 || positions.ncols == 3)
      && (colors.Some? ==> (colors.value.ncols == 3 || colors.value.ncols == 4) && colors.value.NRows() == n)
      && (intensities.Some? ==> IsColumnOf(intensities.value, n))
      && (classifications.Some? ==> IsColumnOf(classifications.value, n))
      && (extraAttributes.Some? ==> forall k :: k in extraAttributes.value ==> IsColumnOf(extraAttributes.value[k], n))
    }

    /** `is_valid()`: checks the columns one by one and stops at the first that is out of shape. */
    method IsValid() returns (valid: bool)
      ensures valid <==> WellShaped()
    {
      var n := Len();
      if positions.ncols != 2 && positions.ncols != 3 {
        return false;
      }
      if colors.Some? {
        var width := colors.value.ncols;
        if width != 3 && width != 4 {
          return false;
        }
        if colors.value.NRows() != n {
          return false;
        }
      }
      if intensities.Some? && !IsColumnOf(intensities.value, n) {
        return false;
      }
      if classifications.Some? && !IsColumnOf(classifications.value, n) {
        return false;
      }
      if extraAttributes.Some? {
        var extras := extraAttributes.value;
        var pending := extras.Keys;
        while pending != {}
          invariant pending <= extras.Keys
          invariant forall k :: k in extras && k !in pending ==> IsColumnOf(extras[k], n)
          decreases pending
        {
          var key :| key in pending;
          if !IsColumnOf(extras[key], n) {
            return false;
          }
          pending := pending - {key};
        }
      }
      return true;
    }

    /**
     * `has_attribute(name)` as written: x, y and z always; the color channels,
     * intensity and classification when their column is present; any other
     * name when it is an extra column.
     */
    function HasAttribute(attribute: string): (r: bool)
      reads this
      ensures attribute in {"x", "y", "z"} ==> r
      ensures attribute in {"r", "g", "b", "a"} ==> (r <==> colors.Some?)
      ensures attribute == "intensity" ==> (r <==> intensities.Some?)
      ensures attribute == "classification" ==> (r <==> classifications.Some?)
      ensures attribute !in ReservedNames ==> (r <==> attribute in ExtraKeys())
    {
      match attribute
      case "x" => true
      case "y" => true
      case "z" => true
      case "r" => colors.Some?
      case "g" => colors.Some?
      case "b" => colors.Some?
      case "a" => colors.Some?
      case "intensity" => intensities.Some?
      case "classification" => classifications.Some?
      case _ => extraAttributes.Some? && attribute in extraAttributes.value
    }

    /**
     * `has_attribute(name)` as evidently intended: like HasAttribute, except
     * that z is reported only for 3-D positions and the alpha channel only
     * for 4-wide colors, as `attribute_names` lists them.
     */
    function HasAttributeIntended(attribute: string): (r: bool)
      reads this
      ensures attribute == "z" ==> (r <==> Is3d())
      ensures attribute == "a" ==> (r <==> colors.Some? && colors.value.ncols == 4)
      ensures attribute != "z" && attribute != "a" ==> r == HasAttribute(attribute)
    {
      match attribute
      case "z" => positions.ncols == 3
      case "a" => colors.Some? && colors.value.ncols == 4
      case _ => HasAttribute(attribute)
    }

    /** The fixed-order head of `attribute_names` for this cloud's columns. */
    function SchemaNames(): seq<string>
      reads this
    {
      ListedSchemaNames(positions.ncols, if colors.Some? then Some(colors.value.ncols) else None,
                        intensities.Some?, classifications.Some?)
    }

    /** Every name `attribute_names` lists, without regard to order. */
    function AttributeNameSet(): (names: set<string>)
      reads this
      ensures forall k :: k in names <==> k in SchemaNames() || k in ExtraKeys()
    {
      (set k | k in SchemaNames()) + ExtraKeys()
    }

    /**
     * `attribute_names()`: the schema names in their fixed order, followed by
     * every extra column's name once, in the map's iteration order (which is
     * left open here).
     */
    method AttributeNames() returns (names: seq<string>)
      ensures |names| >= |SchemaNames()| && names[..|SchemaNames()|] == SchemaNames()
      ensures ListsOnce(names[|SchemaNames()|..], ExtraKeys())
      ensures forall k :: k in names <==> k in AttributeNameSet()
    {
      var head := PushSchemaNames(positions.ncols, if colors.Some? then Some(colors.value.ncols) else None,
                                  intensities.Some?, classifications.Some?);
      names := head;
      if extraAttributes.Some? {
        var extraNames := ListExtraNames(extraAttributes.value);
        names := names + extraNames;
        assert names[|head|..] == extraNames;
      }
    }

    /**
     * `clear()`: every present column loses its rows. Positions and colors
     * keep their width; intensities, classifications and extra columns are
     * reset to width 1. Presence, extra names and capacity are unchanged.
     */
    method Clear()
      modifies this
      ensures positions == Empty(old(positions.ncols))
      ensures colors == if old(colors).Some? then Some(Empty(old(colors).value.ncols)) else None
      ensures intensities == if old(intensities).Some? then Some(Empty(1)) else None
      ensures classifications == if old(classifications).Some? then Some(Empty(1)) else None
      ensures extraAttributes.Some? == old(extraAttributes).Some?
      ensures extraAttributes.Some? ==> extraAttributes.value.Keys == old(extraAttributes).value.Keys
      ensures extraAttributes.Some? ==> forall k :: k in extraAttributes.value ==> extraAttributes.value[k] == Empty(1)
      ensures capacity == old(capacity) && isAutoExpandCapacity == old(isAutoExpandCapacity)
      ensures Rectangular()
      ensures Len() == 0 && Is3d() == old(Is3d())
      ensures SchemaNames() == old(SchemaNames()) && ExtraKeys() == old(ExtraKeys())
      ensures WellShaped() <==> old((positions.ncols == 2 || positions.ncols == 3)
                                    && (colors.Some? ==> colors.value.ncols == 3 || colors.value.ncols == 4))
    {
      positions := Empty(positions.ncols);
      if colors.Some? {
        colors := Some(Empty(colors.value.ncols));
      }
      if intensities.Some? {
        intensities := Some(Empty(1));
      }
      if classifications.Some? {
        classifications := Some(Empty(1));
      }
      if extraAttributes.Some? {
        var cleared := EmptyExtraColumns(extraAttributes.value);
        extraAttributes := Some(cleared);
      }
      assert Len() == 0;
      assert extraAttributes.Some? ==> forall k :: k in extraAttributes.value ==> IsColumnOf(extraAttributes.value[k], 0);
    }

    /**
     * `reserve(additional)`: raises the capacity to len + additional when that
     * is larger. Reserving rows in the columns changes none of their contents.
     */
    method Reserve(additional: nat)
      modifies this
      ensures capacity == ReservedCapacity(old(capacity), old(Len()), additional)
      ensures positions == old(positions) && colors == old(colors) && intensities == old(intensities)
      ensures classifications == old(classifications) && extraAttributes == old(extraAttributes)
      ensures isAutoExpandCapacity == old(isAutoExpandCapacity)
    {
      var currentLen := Len();
      var newCapacity := currentLen + additional;
      if newCapacity > capacity {
        capacity := newCapacity;
      }
    }

    /** `_auto_expand_capacity()`: grows the capacity by the bootstrap-then-double policy. */
    method AutoExpandCapacity()
      modifies this
      ensures capacity == AutoExpandedCapacity(old(isAutoExpandCapacity), old(capacity), old(Len()))
      ensures positions == old(positions) && colors == old(colors) && intensities == old(intensities)
      ensures classifications == old(classifications) && extraAttributes == old(extraAttributes)
      ensures isAutoExpandCapacity == old(isAutoExpandCapacity)
    {
      if !isAutoExpandCapacity {
        return;
      }
      var currentLen := Len();
      if capacity == 0 {
        Reserve(16);
      } else if currentLen >= capacity {
        Reserve(capacity);
      }
    }
  }

  /**
   * On a valid cloud whose extra names avoid the reserved ones, the
   * as-written `has_attribute` agrees with `attribute_names` on every name
   * except z and a.
   */
  lemma HasAttributeMatchesNamesExceptZA(pc: CompactPointCloud, name: string)
    requires pc.WellShaped() && pc.ExtraKeys() !! ReservedNames
    requires name != "z" && name != "a"
    ensures pc.HasAttribute(name) <==> name in pc.AttributeNameSet()
  {
    if name !in ReservedNames {
      assert name !in pc.SchemaNames();
    }
  }

  /** A 2-D cloud reports attribute z although `attribute_names` does not list it. */
  lemma FlatCloudReportsZ(pc: CompactPointCloud)
    requires pc.positions.ncols == 2 && pc.ExtraKeys() == {}
    ensures pc.HasAttribute("z") && "z" !in pc.AttributeNameSet()
  {
  }

  /** A cloud with 3-wide colors reports attribute a although `attribute_names` does not list it. */
  lemma RgbCloudReportsAlpha(pc: CompactPointCloud)
    requires pc.colors.Some? && pc.colors.value.ncols == 3 && pc.ExtraKeys() == {}
    ensures pc.HasAttribute("a") && "a" !in pc.AttributeNameSet()
  {
  }

  /**
   * On a valid cloud whose extra names avoid the reserved ones, the intended
   * `has_attribute` holds of exactly the names `attribute_names` lists.
   */
  lemma HasAttributeIntendedMatchesNames(pc: CompactPointCloud, name: string)
    requires pc.WellShaped() && pc.ExtraKeys() !! ReservedNames
    ensures pc.HasAttributeIntended(name) <==> name in pc.AttributeNameSet()
  {
    if name != "z" && name != "a" {
      HasAttributeMatchesNamesExceptZA(pc, name);
    }
  }
}
