# Point-cloud storage layer of pcl_rustic, modelled in Dafny

This project models the storage core of the `pcl_rustic_core` crate:

- the `Point` value: three coordinates plus a name-to-number attribute map;
- the 4x4 homogeneous `Transform`: shape-checked construction, identity, point mapping with the guarded division by the weight w, and composition;
- the default methods of the `PointCloud` trait: `at`, `at_mut`, `set`, `num_points`, `is_empty`;
- the row layout `SimplePointCloud`: a vector of points;
- the column layout `CompactPointCloud`: a positions array 2 or 3 wide, optional colors (3 or 4 wide), optional intensity and classification columns, optional named extra columns, and a capacity counter with an auto-expansion policy.

Scalars are Dafny `real`s. A two-dimensional ndarray is `NdArray.Array2`: its rows, plus a declared width that survives when there are no rows. The two point clouds are classes whose methods update their fields in place, as the Rust `&mut self` methods do. `Point` and `Transform` are values.

Modules, one per source file: `Wrappers` (Option, Result), `NdArray`, `Points` (point.rs), `Transforms` (transform.rs), `PointClouds` (point_cloud.rs), `SimplePointClouds` (simple_point_cloud.rs), `CompactPointClouds` (compact_point_cloud.rs).

Points worth knowing about the code:

- A point's `z` is a required coordinate. The point has no color, intensity, ring id or time offset fields.
- Composition `a2b * b2c` multiplies `b2c.mat · a2b.mat`, so `self` is applied first. For an affine `a2b` this is proved to equal applying `a2b` and then `b2c`.
- `clear` on the column layout resets intensities, classifications and extra columns to `zeros((0, 1))`. Those columns therefore end up 1 wide whatever width they had before. Positions and colors keep their width.
- The capacity bootstrap is `reserve(16)`, which sets the capacity to len + 16. Doubling is `reserve(capacity)`, which sets it to len + capacity.
- `is_3d` answers "some point is 3-D" in the row layout and "positions are 3 wide" in the column layout. A fresh column cloud is already 3-D. The crate's test expects `!is_3d()` after adding one 2-D point, which conflicts with that default. `add_point` is unimplemented there, so the model does not settle the conflict.

## Model

| member | source | states |
|---|---|---|
| Points.New | crates/pcl_rustic_core/src/point.rs:22-29 | the point has exactly the given coordinates and no attribute is set |
| Points.WithAttributes | crates/pcl_rustic_core/src/point.rs:32-39 | the point has the given coordinates; every key's lookup is the given map's entry, or None when absent |
| Points.Default | crates/pcl_rustic_core/src/point.rs:52-59 | the default point is the origin with no attributes |
| Points.Point.GetAttribute | crates/pcl_rustic_core/src/point.rs:47-49 | Some exactly for stored keys, carrying the stored value; None for a key never set |
| Points.Point.SetAttribute | crates/pcl_rustic_core/src/point.rs:42-44 | afterwards the key reads back the new value; every other key reads as before; the key set gains the key; coordinates are unchanged |
| Points.SetAttributeTwice | crates/pcl_rustic_core/src/point.rs:42-44 | setting one key twice equals setting it once to the second value (overwrite) |
| Points.SetAttributeCommutes | crates/pcl_rustic_core/src/point.rs:42-44 | setting two different keys gives the same point in either order |
| Points.SetAttributeExisting | crates/pcl_rustic_core/src/point.rs:42-49 | re-setting a key to the value it holds leaves the point equal to itself |
| Transforms.FromArray | crates/pcl_rustic_core/src/transform.rs:18-31 | the nested row/column push loops and the reshape give a valid 4x4 transform with mat[r][c] == a[r][c] |
| Transforms.FromShapeVec4x4 | crates/pcl_rustic_core/src/transform.rs:29 | reshaping 16 values row-major gives a 4x4 matrix with m[r][c] == v[4r + c] |
| Transforms.FromArray2 | crates/pcl_rustic_core/src/transform.rs:34-44 | Ok exactly when the array's shape is (4, 4), holding that matrix; otherwise Err carrying the rejected shape |
| Transforms.Identity | crates/pcl_rustic_core/src/transform.rs:47-50 | a valid transform whose entry (i, j) is 1 on the diagonal and 0 elsewhere |
| Transforms.Default | crates/pcl_rustic_core/src/transform.rs:97-101 | the default transform is the identity |
| Transforms.Normalize | crates/pcl_rustic_core/src/transform.rs:63-68 | when the weight's absolute value exceeds 1e-6, the result times the weight gives back the first three components; otherwise they are returned unchanged |
| Transforms.Transform.ApplyToPoint | crates/pcl_rustic_core/src/transform.rs:54-69 | the result is the normalisation of mat · [x, y, z or 0, 1] in the sense above |
| Transforms.Transform.ApplyToArray | crates/pcl_rustic_core/src/transform.rs:71-89 | on a 3-element input it returns the 3 components the tuple form returns for the same point |
| Transforms.Transform.Compose | crates/pcl_rustic_core/src/transform.rs:103-110 | the product is valid and its entry (i, j) is row i of b2c times column j of self, so self is applied first |
| Transforms.ApplyMissingZ | crates/pcl_rustic_core/src/transform.rs:58 | a missing z maps exactly like z = 0 |
| Transforms.IdentityApply | crates/pcl_rustic_core/src/transform.rs:47-68 | the identity maps (x, y, z) to itself |
| Transforms.AffineApply | crates/pcl_rustic_core/src/transform.rs:59-68 | an affine matrix gives weight 1, so no division happens and the result is the plain product |
| Transforms.MatVecMatMul | crates/pcl_rustic_core/src/transform.rs:107 | (b · a) · v equals b · (a · v) |
| Transforms.ComposeAppliesSelfFirst | crates/pcl_rustic_core/src/transform.rs:105-107 | for an affine a2b, applying a2b * b2c to a point equals applying a2b and then b2c |
| Transforms.ComposeIdentity | crates/pcl_rustic_core/src/transform.rs:103-110 | composing with the identity on either side gives the same transform |
| Transforms.ComposeAssociative | crates/pcl_rustic_core/src/transform.rs:103-110 | (t1 * t2) * t3 equals t1 * (t2 * t3) |
| Transforms.TranslationExample | crates/pcl_rustic_core/src/transform.rs:54-69 | translating (1, 2, 3) by (10, 20, 30) gives (11, 22, 33) |
| PointClouds.At | crates/pcl_rustic_core/src/point_cloud.rs:15-17 | None exactly when the index is at or past the end; otherwise the point at that index |
| PointClouds.AtMut | crates/pcl_rustic_core/src/point_cloud.rs:19-21 | None exactly when the index is at or past the end; otherwise a handle on that slot |
| PointClouds.NumPoints | crates/pcl_rustic_core/src/point_cloud.rs:34-36 | zero exactly for no points; the indices below it are exactly those `at` answers |
| PointClouds.IsEmpty | crates/pcl_rustic_core/src/point_cloud.rs:37-39 | true exactly when num_points is 0, that is when `at(0)` is None |
| PointClouds.Transformed | crates/pcl_rustic_core/src/point_cloud.rs:50-51 | same length as the input, element i mapped from input element i |
| SimplePointClouds.AnyPoint | crates/pcl_rustic_core/src/simple_point_cloud.rs:46 | `iter().any` holds exactly when some element satisfies the probe |
| SimplePointClouds.SimplePointCloud.constructor | crates/pcl_rustic_core/src/simple_point_cloud.rs:15-17 | a new cloud holds no points |
| SimplePointClouds.SimplePointCloud.WithCapacity | crates/pcl_rustic_core/src/simple_point_cloud.rs:19-23 | a cloud made with a capacity hint holds no points |
| SimplePointClouds.SimplePointCloud.Points | crates/pcl_rustic_core/src/simple_point_cloud.rs:29-31 | the stored points, index for index what `at` returns |
| SimplePointClouds.SimplePointCloud.AddPoint | crates/pcl_rustic_core/src/simple_point_cloud.rs:33-35 | the new points are the old ones followed by the added point |
| SimplePointClouds.SimplePointCloud.Clear | crates/pcl_rustic_core/src/simple_point_cloud.rs:37-39 | no points remain |
| SimplePointClouds.SimplePointCloud.Reserve | crates/pcl_rustic_core/src/simple_point_cloud.rs:41-43 | the points are unchanged |
| SimplePointClouds.SimplePointCloud.Set | crates/pcl_rustic_core/src/point_cloud.rs:23-30 | Ok exactly for an index in range, and then only that element becomes the point; otherwise Err with the index and nothing changes |
| SimplePointClouds.SimplePointCloud.Is3d | crates/pcl_rustic_core/src/simple_point_cloud.rs:45-47 | true exactly when some stored point is 3-D, so false for an empty cloud |
| SimplePointClouds.SimplePointCloud.HasColor | crates/pcl_rustic_core/src/simple_point_cloud.rs:49-51 | true exactly when some stored point has a color |
| SimplePointClouds.SimplePointCloud.HasIntensity | crates/pcl_rustic_core/src/simple_point_cloud.rs:53-55 | true exactly when some stored point has an intensity |
| SimplePointClouds.SimplePointCloud.HasAttribute | crates/pcl_rustic_core/src/simple_point_cloud.rs:57-67 | x and y always hold; z follows is_3d; r, g, b and a follow has_color; intensity, ring_id and time_offset hold when some point carries them; any other name is false; on an empty cloud only x and y hold |
| SimplePointClouds.SimplePointCloud.Transform | crates/pcl_rustic_core/src/simple_point_cloud.rs:69-76 | a fresh cloud whose points are the stored points mapped one by one, in order |
| SimplePointClouds.SimplePointCloud.TransformInPlace | crates/pcl_rustic_core/src/simple_point_cloud.rs:78-83 | the length is kept and every stored point is replaced by its image |
| NdArray.Empty | crates/pcl_rustic_core/src/compact_point_cloud.rs:186 | zeros((0, w)) is well shaped with dimensions (0, w) |
| CompactPointClouds.CompactPointCloud.constructor | crates/pcl_rustic_core/src/compact_point_cloud.rs:23-35 | no points, positions 3 wide (so is_3d holds), no optional column, capacity 0, auto-expansion on, names x, y, z; the cloud is rectangular and valid |
| CompactPointClouds.CompactPointCloud.WithCapacity | crates/pcl_rustic_core/src/compact_point_cloud.rs:167-171 | the default cloud with capacity exactly n, rectangular and valid |
| CompactPointClouds.CompactPointCloud.Len | crates/pcl_rustic_core/src/compact_point_cloud.rs:38-40 | on a valid cloud every present column has len rows |
| CompactPointClouds.CompactPointCloud.IsEmpty | crates/pcl_rustic_core/src/compact_point_cloud.rs:41-43 | true exactly when len is 0; on a valid cloud, exactly when every present column has no rows |
| CompactPointClouds.CompactPointCloud.Capacity | crates/pcl_rustic_core/src/compact_point_cloud.rs:48-50 | the capacity counter, kept apart from the row count |
| CompactPointClouds.ReservedCapacity | crates/pcl_rustic_core/src/compact_point_cloud.rs:203-208 | the capacity after reserve is at least the old one and at least len + additional, and is one of the two |
| CompactPointClouds.CompactPointCloud.Reserve | crates/pcl_rustic_core/src/compact_point_cloud.rs:203-224 | the capacity becomes max(old capacity, len + additional); no column and no flag changes |
| CompactPointClouds.AutoExpandedCapacity | crates/pcl_rustic_core/src/compact_point_cloud.rs:52-62 | unchanged when disabled; from 0 it becomes len + 16; at or past capacity it becomes len + capacity, which is double when len equals capacity; otherwise unchanged; when enabled there is always room for one more row |
| CompactPointClouds.CompactPointCloud.AutoExpandCapacity | crates/pcl_rustic_core/src/compact_point_cloud.rs:52-62 | the capacity follows AutoExpandedCapacity and no column changes |
| CompactPointClouds.CompactPointCloud.IsValid | crates/pcl_rustic_core/src/compact_point_cloud.rs:64-96 | true exactly when positions are 2 or 3 wide; colors, if present, are 3 or 4 wide with len rows; intensity, classification and every extra column, if present, are len x 1 |
| CompactPointClouds.CompactPointCloud.HasAttribute | crates/pcl_rustic_core/src/compact_point_cloud.rs:105-119 | x, y and z always hold; r, g, b and a follow the color column's presence; intensity and classification follow their columns; any other name holds exactly when it is an extra column |
| CompactPointClouds.CompactPointCloud.HasClassification | crates/pcl_rustic_core/src/compact_point_cloud.rs:129-131 | agrees with has_attribute("classification") and with classification being in the schema part of attribute_names; when no extra column takes a reserved name, exactly when attribute_names lists classification |
| CompactPointClouds.CompactPointCloud.HasIntensity | crates/pcl_rustic_core/src/compact_point_cloud.rs:132-134 | agrees with has_attribute("intensity") and with intensity being in the schema part of attribute_names; when no extra column takes a reserved name, exactly when attribute_names lists intensity |
| CompactPointClouds.CompactPointCloud.Is3d | crates/pcl_rustic_core/src/compact_point_cloud.rs:226-228 | true exactly when the schema part of attribute_names lists z; when no extra column takes a reserved name, exactly when attribute_names lists z; it implies has_attribute("z") |
| CompactPointClouds.CompactPointCloud.HasColor | crates/pcl_rustic_core/src/compact_point_cloud.rs:230-232 | agrees with has_attribute for r, g and b |
| CompactPointClouds.ListedSchemaNames | crates/pcl_rustic_core/src/compact_point_cloud.rs:137-158 | starts with x, y; lists z exactly for 3-wide positions; r, g, b exactly for 3- or 4-wide colors; a exactly for 4-wide colors; intensity and classification exactly when present; nothing else |
| CompactPointClouds.SchemaNamesInOrder | crates/pcl_rustic_core/src/compact_point_cloud.rs:137-158 | the schema head is in the order x, y, z, r, g, b, a, intensity, classification, and names nothing twice |
| CompactPointClouds.PushSchemaNames | crates/pcl_rustic_core/src/compact_point_cloud.rs:137-158 | the successive pushes produce exactly the fixed-order schema list |
| CompactPointClouds.ListExtraNames | crates/pcl_rustic_core/src/compact_point_cloud.rs:159-163 | the loop lists every extra column name exactly once |
| CompactPointClouds.CompactPointCloud.AttributeNameSet | crates/pcl_rustic_core/src/compact_point_cloud.rs:136-165 | a name is listed exactly when it is a schema name or an extra column name |
| CompactPointClouds.CompactPointCloud.AttributeNames | crates/pcl_rustic_core/src/compact_point_cloud.rs:136-165 | the schema names in their fixed order, then each extra name exactly once; the names are exactly AttributeNameSet |
| CompactPointClouds.EmptyExtraColumns | crates/pcl_rustic_core/src/compact_point_cloud.rs:196-200 | the same extra names, each now an empty 1-wide column |
| CompactPointClouds.CompactPointCloud.Clear | crates/pcl_rustic_core/src/compact_point_cloud.rs:185-201 | len becomes 0; every column keeps its presence; positions and colors keep their width; the other columns become 0 x 1; every column is rectangular; schema names, extra names, is_3d and capacity are unchanged; the cloud is valid afterwards exactly when its position and color widths were valid |
| CompactPointClouds.HasAttributeMatchesNamesExceptZA | crates/pcl_rustic_core/src/compact_point_cloud.rs:105-119 | on a valid cloud whose extra names avoid the reserved ones, has_attribute holds of a name other than z and a exactly when attribute_names lists it |
| CompactPointClouds.FlatCloudReportsZ | crates/pcl_rustic_core/src/compact_point_cloud.rs:107 | on a cloud with 2-wide positions, has_attribute("z") holds but attribute_names does not list z |
| CompactPointClouds.RgbCloudReportsAlpha | crates/pcl_rustic_core/src/compact_point_cloud.rs:108 | on a cloud with 3-wide colors, has_attribute("a") holds but attribute_names does not list a |
| CompactPointClouds.CompactPointCloud.HasAttributeIntended | crates/pcl_rustic_core/src/compact_point_cloud.rs:105-119 | as has_attribute, except that z follows is_3d and a requires 4-wide colors |
| CompactPointClouds.HasAttributeIntendedMatchesNames | crates/pcl_rustic_core/src/compact_point_cloud.rs:105-119 | on a valid cloud whose extra names avoid the reserved ones, the corrected has_attribute holds of exactly the names attribute_names lists |

## Left out

- Floating point: scalars are reals. The 1e-6 guard is a plain comparison. No rounding, f32/f64 width or associativity-within-tolerance result is claimed.
- Generic numeric parameters (`T`, `Txy`, `Ti`, `Trgb`, `Tc`, `Textra`) are all fixed to `real`, including the u8 color channels.
- Points.Point.SetAttribute: the source updates the map in place through `&mut self`. A point is a plain value with no aliasing, so the model returns the updated point instead.
- Point members that the row layout calls but point.rs does not define (`is_3d`, `has_color`, `intensity`, `ring_id`, `time_offset`, `transform`) are not part of this model. They are passed in as parameters: a `PointProbes` record, and the `transformPoint` function standing for `p.transform(a2b)`. The test helpers `new_2d`, `new_3d`, `with_rgba` and `with_intensity` are left out for the same reason.
- CompactPointCloud's `transform`, `transform_inplace`, `mutable_points`, `points` and `add_point` are `unimplemented!()` in the source and are not modelled. The same goes for the trait defaults `at`, `at_mut` and `set` on that layout, which would call `points()` and `mutable_points()`. The crate's add-then-query test depends on `add_point` and is not modelled.
- CompactPointCloud's inherent `num_points` returns `len()` and is covered by `Len`.
- Allocation: `Vec::with_capacity`, `Vec::reserve` and ndarray's `reserve_rows` have no observable effect besides the capacity counter.
- CompactPointClouds.ReservedCapacity, CompactPointClouds.AutoExpandedCapacity, CompactPointClouds.CompactPointCloud.Reserve, CompactPointClouds.CompactPointCloud.AutoExpandCapacity: lengths and capacities are unbounded naturals. The source's `usize` overflow is not modelled: `current_len + additional` and `reserve(self._capacity)` panic in a debug build and wrap in a release build.
- CompactPointClouds.CompactPointCloud.IsValid: ndarray keeps every array rectangular, so `is_valid` does not check it and the model states it apart, as `Rectangular`. The constructors and `Clear` establish it, and `Reserve` leaves the columns untouched.
- CompactPointClouds.CompactPointCloud.AttributeNames: the order of the extra names is left open, because it is HashMap iteration order. Only "each extra name exactly once, after the schema names" is stated.
- Error messages: `format!` text is not built. `Transforms.ShapeError` carries the rejected shape and `PointClouds.IndexError` carries the refused index.
- Panics: the array form of `apply_to_point` asserts a length of 3, so the model requires it. The `expect("shape is 4x4")` in the array constructor is proved unreachable.
- SimplePointClouds.SimplePointCloud.Transform: the source consumes `self`. The model leaves the receiver in place and returns a fresh cloud.
- `as_ndarray` is the `mat` field of the `Transform` datatype. The duplicate `from` and `apply_to_point` definitions are kept apart as `FromArray`/`FromArray2` and `ApplyToPoint`/`ApplyToArray`.
- lib.rs (module re-exports and the `hello_from_core` greeting) and the Python binding crate are not part of this model.

## Findings

| source | as written | input that shows it | evidently intended | confidence | as-written member | corrected member |
|---|---|---|---|---|---|---|
| crates/pcl_rustic_core/src/compact_point_cloud.rs:107 | has_attribute answers true for "z" whatever the positions' width | a cloud whose positions are 2 wide: has_attribute("z") is true, yet attribute_names omits z and is_3d is false. No public operation builds such a cloud today: the fields are private, the default positions are 3 wide, clear and reserve keep the width, and add_point is unimplemented. So the discrepancy is latent | "z" answers is_3d(), as the row layout does at simple_point_cloud.rs:60 | medium, not executed | CompactPointClouds.FlatCloudReportsZ | CompactPointClouds.CompactPointCloud.HasAttributeIntended |
| crates/pcl_rustic_core/src/compact_point_cloud.rs:108 | has_attribute answers "a" by color presence alone | a cloud whose colors are 3 wide (RGB): has_attribute("a") is true, yet attribute_names omits a. No public operation adds a color column today: the default has none, and add_point is unimplemented. So the discrepancy is latent | "a" holds only for 4-wide colors, as attribute_names decides at line 148 | medium, not executed | CompactPointClouds.RgbCloudReportsAlpha | CompactPointClouds.CompactPointCloud.HasAttributeIntended |
