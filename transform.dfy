/**
 * A 4x4 homogeneous transform mapping points of frame a into frame b.
 * Scalars are reals; no rounding is modelled.
 */
module Transforms {
  import opened Wrappers
  import opened NdArray

  /** The smallest weight |w| that `apply_to_point` still divides by is anything above this. */
  const Epsilon: real := 0.000001

  predicate Is4x4(m: seq<seq<real>>) {
    |m| == 4 && forall r :: 0 <= r < 4 ==> |m[r]| == 4
  }

  /** The affine matrices: bottom row 0, 0, 0, 1. */
  ghost predicate IsAffine(m: seq<seq<real>>)
    requires Is4x4(m)
  {
    m[3] == [0.0, 0.0, 0.0, 1.0]
  }

  function Abs(a: real): (r: real)
    ensures r >= 0.0 && (r == a || r == -a)
  {
    if a < 0.0 then -a else a
  }

  /** The dot product of two 4-vectors given component by component. */
  function Dot4(u0: real, u1: real, u2: real, u3: real, v0: real, v1: real, v2: real, v3: real): real {
    u0 * v0 + u1 * v1 + u2 * v2 + u3 * v3
  }

  /** Ordinary matrix product `a.dot(b)` of two 4x4 matrices: row i of a times column j of b. */
  function MatMul(a: seq<seq<real>>, b: seq<seq<real>>): (c: seq<seq<real>>)
    requires Is4x4(a) && Is4x4(b)
    ensures Is4x4(c)
  {
    seq(4, i requires 0 <= i < 4 =>
      seq(4, j requires 0 <= j < 4 =>
        Dot4(a[i][0], a[i][1], a[i][2], a[i][3], b[0][j], b[1][j], b[2][j], b[3][j])))
  }

  /** Matrix times column vector `m.dot(v)`. */
  function MatVec(m: seq<seq<real>>, v: seq<real>): (r: seq<real>)
    requires Is4x4(m) && |v| == 4
    ensures |r| == 4
  {
    seq(4, i requires 0 <= i < 4 =>
      Dot4(m[i][0], m[i][1], m[i][2], m[i][3], v[0], v[1], v[2], v[3]))
  }

  /** The point lifted to homogeneous form and multiplied by the matrix: `mat @ [x, y, z, 1]`. */
  function Homogeneous(m: seq<seq<real>>, x: real, y: real, z: real): (h: seq<real>)
    requires Is4x4(m)
    ensures |h| == 4
  {
    MatVec(m, [x, y, z, 1.0])
  }

  /**
   * `r` is the point that the homogeneous vector `h` stands for: scaled by the
   * weight h[3] it gives back h's first three components when |h[3]| exceeds
   * Epsilon, and it is those components unchanged otherwise.
   */
  ghost predicate NormalisedFrom(r: (real, real, real), h: seq<real>)
    requires |h| == 4
  {
    && (Abs(h[3]) > Epsilon ==> r.0 * h[3] == h[0] && r.1 * h[3] == h[1] && r.2 * h[3] == h[2])
    && (Abs(h[3]) <= Epsilon ==> r == (h[0], h[1], h[2]))
  }

  /**
   * Division of the first three homogeneous components by the weight w,
   * skipped when |w| is at most Epsilon.
   */
  function Normalize(h: seq<real>): (r: (real, real, real))
    requires |h| == 4
    ensures NormalisedFrom(r, h)
  {
    var w := h[3];
    if Abs(w) > Epsilon then
      DivideThenScale(h[0], w);
      DivideThenScale(h[1], w);
      DivideThenScale(h[2], w);
      (h[0] / w, h[1] / w, h[2] / w)
    else (h[0], h[1], h[2])
  }

  /** `format!("ndarray must be 4x4, got {:?}", shape)`: the shape that was rejected. */
  datatype ShapeError = ShapeError(rows: nat, cols: nat)

  datatype Transform = Transform(mat: seq<seq<real>>) {

    /** The field's invariant: the matrix is exactly 4x4. */
    ghost predicate Valid() {
      Is4x4(mat)
    }

    /**
     * `apply_to_point(x, y, z)`: a missing z counts as 0. The lifted point is
     * normalised by its weight w when |w| exceeds Epsilon; otherwise the
     * unnormalised components are returned.
     */
    function ApplyToPoint(x: real, y: real, z: Option<real>): (r: (real, real, real))
      requires Valid()
      ensures NormalisedFrom(r, Homogeneous(mat, x, y, if z.Some? then z.value else 0.0))
    {
      Normalize(Homogeneous(mat, x, y, if z.Some? then z.value else 0.0))
    }

    /** The array form of `apply_to_point`: the input must hold exactly three coordinates. */
    function ApplyToArray(xyz: seq<real>): (r: seq<real>)
      requires Valid() && |xyz| == 3
      ensures var p := ApplyToPoint(xyz[0], xyz[1], Some(xyz[2]));
        r == [p.0, p.1, p.2]
    {
      var vec4 := [xyz[0], xyz[1], xyz[2], 1.0];
      var res := MatVec(mat, vec4);
      var w := res[3];
      if Abs(w) > Epsilon then [res[0] / w, res[1] / w, res[2] / w]
      else [res[0], res[1], res[2]]
    }

    /**
     * `self * b2c`: with self mapping a to b and b2c mapping b to c, the
     * product maps a to c. Its matrix is `b2c.mat.dot(self.mat)`, so self
     * is applied first.
     */
    function Compose(b2c: Transform): (a2c: Transform)
      requires Valid() && b2c.Valid()
      ensures a2c.Valid()
      ensures forall i, j :: 0 <= i < 4 && 0 <= j < 4 ==>
        a2c.mat[i][j] == b2c.mat[i][0] * mat[0][j] + b2c.mat[i][1] * mat[1][j]
                       + b2c.mat[i][2] * mat[2][j] + b2c.mat[i][3] * mat[3][j]
    {
      Transform(MatMul(b2c.mat, mat))
    }
  }

  /** Construction from an existing 2-D array: it succeeds exactly when the shape is (4, 4). */
  function FromArray2(m: Array2): (r: Result<Transform, ShapeError>)
    requires m.Shaped()
    ensures r.Ok? <==> m.Dim() == (4, 4)
    ensures r.Ok? ==> r.value.Valid() && r.value.mat == m.rows
    ensures r.Err? ==> r.error == ShapeError(m.NRows(), m.ncols)
  {
    if m.Dim() == (4, 4) then Ok(Transform(m.rows))
    else Err(ShapeError(m.NRows(), m.ncols))
  }

  /** `Array2::from_shape_vec((4, 4), v)` for a vector known to hold 16 entries. */
  function FromShapeVec4x4(v: seq<real>): (m: seq<seq<real>>)
    requires |v| == 16
    ensures Is4x4(m)
    ensures forall r, c :: 0 <= r < 4 && 0 <= c < 4 ==> m[r][c] == v[4 * r + c]
  {
    seq(4, r requires 0 <= r < 4 => v[4 * r .. 4 * r + 4])
  }

  /** Construction from a fixed `[[T; 4]; 4]` array, flattened row by row and reshaped. */
  method FromArray(a: seq<seq<real>>) returns (t: Transform)
    requires Is4x4(a)
    ensures t.Valid()
    ensures forall r, c :: 0 <= r < 4 && 0 <= c < 4 ==> t.mat[r][c] == a[r][c]
  {
    var v: seq<real> := [];
    for r := 0 to 4
      invariant |v| == 4 * r
      invariant forall i, j :: 0 <= i < r && 0 <= j < 4 ==> v[4 * i + j] == a[i][j]
    {
      for c := 0 to 4
        invariant |v| == 4 * r + c
        invariant forall i, j :: 0 <= i < r && 0 <= j < 4 ==> v[4 * i + j] == a[i][j]
        invariant forall j :: 0 <= j < c ==> v[4 * r + j] == a[r][j]
      {
        v := v + [a[r][c]];
      }
    }
    t := Transform(FromShapeVec4x4(v));
  }

  /** `Array2::eye(4)`. */
  function Identity(): (t: Transform)
    ensures t.Valid()
    ensures forall i, j :: 0 <= i < 4 && 0 <= j < 4 ==> t.mat[i][j] == if i == j then 1.0 else 0.0
  {
    Transform([[1.0, 0.0, 0.0, 0.0],
               [0.0, 1.0, 0.0, 0.0],
               [0.0, 0.0, 1.0, 0.0],
               [0.0, 0.0, 0.0, 1.0]])
  }

  /** The default transform is the identity. */
  function Default(): (t: Transform)
    ensures t.Valid() && t == Identity()
  {
    Identity()
  }

  /** A missing z coordinate behaves exactly like z = 0. */
  lemma ApplyMissingZ(t: Transform, x: real, y: real)
    requires t.Valid()
    ensures t.ApplyToPoint(x, y, None) == t.ApplyToPoint(x, y, Some(0.0))
  {
  }

  /** The identity leaves every point where it is. */
  lemma IdentityApply(x: real, y: real, z: real)
    ensures Identity().ApplyToPoint(x, y, Some(z)) == (x, y, z)
  {
    var h := Homogeneous(Identity().mat, x, y, z);
    assert h[3] == 1.0;
  }

  /** An affine matrix never changes the weight of a lifted point, so no division happens. */
  lemma AffineApply(t: Transform, x: real, y: real, z: real)
    requires t.Valid() && IsAffine(t.mat)
    ensures var h := Homogeneous(t.mat, x, y, z);
      h[3] == 1.0 && t.ApplyToPoint(x, y, Some(z)) == (h[0], h[1], h[2])
  {
    var h := Homogeneous(t.mat, x, y, z);
    var row := t.mat[3];
    assert h[3] == row[0] * x + row[1] * y + row[2] * z + row[3] * 1.0;
    assert row[0] == 0.0 && row[1] == 0.0 && row[2] == 0.0 && row[3] == 1.0;
    assert h[3] == 1.0;
    assert Abs(h[3]) <= Epsilon ==> false;
  }

  /** `(b·a)·v == b·(a·v)`. */
  lemma MatVecMatMul(b: seq<seq<real>>, a: seq<seq<real>>, v: seq<real>)
    requires Is4x4(a) && Is4x4(b) && |v| == 4
    ensures MatVec(MatMul(b, a), v) == MatVec(b, MatVec(a, v))
  {
    var ba := MatMul(b, a);
    var av := MatVec(a, v);
    forall i | 0 <= i < 4
      ensures MatVec(ba, v)[i] == MatVec(b, av)[i]
    {
      Dot4Associative(b[i][0], b[i][1], b[i][2], b[i][3],
                      a[0][0], a[0][1], a[0][2], a[0][3],
                      a[1][0], a[1][1], a[1][2], a[1][3],
                      a[2][0], a[2][1], a[2][2], a[2][3],
                      a[3][0], a[3][1], a[3][2], a[3][3],
                      v[0], v[1], v[2], v[3]);
    }
  }

  /**
   * Composition applies `self` first: for an affine a2b, applying `a2b * b2c`
   * to a point is applying a2b and then b2c to the result.
   */
  lemma ComposeAppliesSelfFirst(a2b: Transform, b2c: Transform, x: real, y: real, z: real)
    requires a2b.Valid() && b2c.Valid() && IsAffine(a2b.mat)
    ensures var p := a2b.ApplyToPoint(x, y, Some(z));
      a2b.Compose(b2c).ApplyToPoint(x, y, Some(z)) == b2c.ApplyToPoint(p.0, p.1, Some(p.2))
  {
    var v := [x, y, z, 1.0];
    var av := MatVec(a2b.mat, v);
    AffineApply(a2b, x, y, z);
    MatVecMatMul(b2c.mat, a2b.mat, v);
    assert [av[0], av[1], av[2], 1.0] == av;
  }

  /** The identity is neutral on both sides of composition. */
  lemma ComposeIdentity(t: Transform)
    requires t.Valid()
    ensures t.Compose(Identity()) == t
    ensures Identity().Compose(t) == t
  {
    var l := t.Compose(Identity()).mat;
    var r := Identity().Compose(t).mat;
    forall i | 0 <= i < 4
      ensures l[i] == t.mat[i] && r[i] == t.mat[i]
    {
    }
  }

  /** Composition is associative. */
  lemma ComposeAssociative(t1: Transform, t2: Transform, t3: Transform)
    requires t1.Valid() && t2.Valid() && t3.Valid()
    ensures t1.Compose(t2).Compose(t3) == t1.Compose(t2.Compose(t3))
  {
    var l := t1.Compose(t2).Compose(t3).mat;
    var r := t1.Compose(t2.Compose(t3)).mat;
    forall i, j | 0 <= i < 4 && 0 <= j < 4
      ensures l[i][j] == r[i][j]
    {
      MatMulEntryAssociative(t3.mat, t2.mat, t1.mat, i, j);
    }
    forall i | 0 <= i < 4
      ensures l[i] == r[i]
    {
    }
  }

  /** One entry of `(c·b)·a == c·(b·a)`. */
  lemma MatMulEntryAssociative(c: seq<seq<real>>, b: seq<seq<real>>, a: seq<seq<real>>, i: nat, j: nat)
    requires Is4x4(a) && Is4x4(b) && Is4x4(c) && i < 4 && j < 4
    ensures MatMul(MatMul(c, b), a)[i][j] == MatMul(c, MatMul(b, a))[i][j]
  {
    Dot4Associative(c[i][0], c[i][1], c[i][2], c[i][3],
                    b[0][0], b[0][1], b[0][2], b[0][3],
                    b[1][0], b[1][1], b[1][2], b[1][3],
                    b[2][0], b[2][1], b[2][2], b[2][3],
                    b[3][0], b[3][1], b[3][2], b[3][3],
                    a[0][j], a[1][j], a[2][j], a[3][j]);
  }

  /**
   * The scalar identity behind associativity: a row u times (the matrix m
   * times a column w) is (u times m) times w.
   */
  lemma Dot4Associative(u0: real, u1: real, u2: real, u3: real,
                        m00: real, m01: real, m02: real, m03: real,
                        m10: real, m11: real, m12: real, m13: real,
                        m20: real, m21: real, m22: real, m23: real,
                        m30: real, m31: real, m32: real, m33: real,
                        w0: real, w1: real, w2: real, w3: real)
    ensures Dot4(Dot4(u0, u1, u2, u3, m00, m10, m20, m30), Dot4(u0, u1, u2, u3, m01, m11, m21, m31),
                 Dot4(u0, u1, u2, u3, m02, m12, m22, m32), Dot4(u0, u1, u2, u3, m03, m13, m23, m33),
                 w0, w1, w2, w3)
         == Dot4(u0, u1, u2, u3,
                 Dot4(m00, m01, m02, m03, w0, w1, w2, w3), Dot4(m10, m11, m12, m13, w0, w1, w2, w3),
                 Dot4(m20, m21, m22, m23, w0, w1, w2, w3), Dot4(m30, m31, m32, m33, w0, w1, w2, w3))
  {
  }

  /** Dividing by a non-zero weight and scaling back recovers the component. */
  lemma DivideThenScale(a: real, w: real)
    requires w != 0.0
    ensures (a / w) * w == a
  {
  }

  /** Translating (1, 2, 3) by (10, 20, 30) gives (11, 22, 33). */
  lemma TranslationExample()
    ensures Transform([[1.0, 0.0, 0.0, 10.0],
                       [0.0, 1.0, 0.0, 20.0],
                       [0.0, 0.0, 1.0, 30.0],
                       [0.0, 0.0, 0.0, 1.0]]).ApplyToPoint(1.0, 2.0, Some(3.0)) == (11.0, 22.0, 33.0)
  {
    var t := Transform([[1.0, 0.0, 0.0, 10.0],
                        [0.0, 1.0, 0.0, 20.0],
                        [0.0, 0.0, 1.0, 30.0],
                        [0.0, 0.0, 0.0, 1.0]]);
    AffineApply(t, 1.0, 2.0, 3.0);
  }
}
