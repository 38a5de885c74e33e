/** Fixed-length vectors and row-major 3x4 matrices of the orbit camera, and the
    component-wise helpers of orbitCamera.cpp's anonymous namespace. Single-precision
    floats are modelled as `real`: rounding is not part of this model. */
module VecMath {

  type Vec3 = v: seq<real> | |v| == 3 witness [0.0, 0.0, 0.0]
  type Vec4 = v: seq<real> | |v| == 4 witness [0.0, 0.0, 0.0, 0.0]

  /** `rowMajorMat3x4_t`: three rows of four entries; the last entry of a row is
      its translation component. */
  type Mat34 = m: seq<Vec4> | |m| == 3 witness [ZeroRow, ZeroRow, ZeroRow]

  /** The homogeneous 4x4 matrix of the external library. */
  type Mat4 = m: seq<Vec4> | |m| == 4 witness [ZeroRow, ZeroRow, ZeroRow, ZeroRow]

  const Zero3: Vec3 := [0.0, 0.0, 0.0]
  const ZeroRow: Vec4 := [0.0, 0.0, 0.0, 0.0]

  /** `vec * scalar`: every component multiplied by `k`. */
  function Scale(v: seq<real>, k: real): (r: seq<real>)
    ensures |r| == |v|
  {
    if |v| == 0 then [] else [v[0] * k] + Scale(v[1..], k)
  }

  /** `vecL + vecR`, component by component. */
  function Add(a: seq<real>, b: seq<real>): (r: seq<real>)
    requires |a| == |b|
    ensures |r| == |a|
  {
    if |a| == 0 then [] else [a[0] + b[0]] + Add(a[1..], b[1..])
  }

  /** `vecL - vecR`, component by component. */
  function Sub(a: seq<real>, b: seq<real>): (r: seq<real>)
    requires |a| == |b|
    ensures |r| == |a|
  {
    if |a| == 0 then [] else [a[0] - b[0]] + Sub(a[1..], b[1..])
  }

  /** Component `i` of `vec * k` is `vec[i] * k`. */
  lemma {:induction false} ScaleAt(v: seq<real>, k: real)
    ensures forall i :: 0 <= i < |v| ==> Scale(v, k)[i] == v[i] * k
  {
    if |v| > 0 {
      ScaleAt(v[1..], k);
    }
  }

  /** Component `i` of `vecL + vecR` is `vecL[i] + vecR[i]`. */
  lemma {:induction false} AddAt(a: seq<real>, b: seq<real>)
    requires |a| == |b|
    ensures forall i :: 0 <= i < |a| ==> Add(a, b)[i] == a[i] + b[i]
  {
    if |a| > 0 {
      AddAt(a[1..], b[1..]);
    }
  }

  /** Component `i` of `vecL - vecR` is `vecL[i] - vecR[i]`. */
  lemma {:induction false} SubAt(a: seq<real>, b: seq<real>)
    requires |a| == |b|
    ensures forall i :: 0 <= i < |a| ==> Sub(a, b)[i] == a[i] - b[i]
  {
    if |a| > 0 {
      SubAt(a[1..], b[1..]);
    }
  }

  /** `dot(vecL, vecR)`: the products summed from the first component on, in the
      order the source's accumulator adds them. A vector's dot product with itself
      is never negative. */
  function Dot(a: seq<real>, b: seq<real>): (r: real)
    requires |a| == |b|
    ensures a == b ==> r >= 0.0
  {
    if |a| == 0 then 0.0
    else Dot(a[..|a| - 1], b[..|b| - 1]) + a[|a| - 1] * b[|b| - 1]
  }

  /** For 3-vectors the dot product is the familiar three-term sum. */
  lemma Dot3(a: Vec3, b: Vec3)
    ensures Dot(a, b) == a[0] * b[0] + a[1] * b[1] + a[2] * b[2]
  {
    var a2, b2 := a[..2], b[..2];
    var a1, b1 := a2[..1], b2[..1];
    assert Dot(a1, b1) == Dot(a1[..0], b1[..0]) + a[0] * b[0];
    assert Dot(a2, b2) == Dot(a1, b1) + a[1] * b[1];
  }

  /** Negating every component does not change a vector's squared length. */
  lemma {:induction false} DotOfNegation(a: seq<real>, b: seq<real>)
    requires |a| == |b|
    requires forall i :: 0 <= i < |a| ==> a[i] == -b[i]
    ensures Dot(a, a) == Dot(b, b)
  {
    if |a| > 0 {
      DotOfNegation(a[..|a| - 1], b[..|b| - 1]);
    }
  }

  /** The dot product of two 3-vector displays. */
  lemma DotOfDisplays(a0: real, a1: real, a2: real, b0: real, b1: real, b2: real)
    ensures Dot([a0, a1, a2], [b0, b1, b2]) == a0 * b0 + a1 * b1 + a2 * b2
  {
    Dot3([a0, a1, a2], [b0, b1, b2]);
  }

  /** Multiplying equals by the same factor. */
  lemma MulBoth(k: real, a: real, b: real)
    ensures a == b ==> k * a == k * b
  {
  }

  /** A factor distributes over a three-term sum. */
  lemma DistributeOverThree(k: real, a: real, b: real, c: real)
    ensures k * (a + b + c) == k * a + k * b + k * c
  {
  }

  /** One product of a coordinate with a combination, multiplied out. */
  lemma ProductWithCombination(w: real, x: real, y: real, c: real, s: real)
    ensures w * (x * c + y * s) == c * (w * x) + s * (w * y)
  {
  }

  /** The dot product is symmetric. */
  lemma DotSymmetric(a: Vec3, b: Vec3)
    ensures Dot(a, b) == Dot(b, a)
  {
    Dot3(a, b); Dot3(b, a);
  }

  /** The dot product is linear in its second argument: `w` dotted with
      `x * c + y * s` is `c * dot(w, x) + s * dot(w, y)`. */
  lemma DotWithCombination(w: Vec3, x: Vec3, y: Vec3, c: real, s: real)
    ensures Dot(w, Add(Scale(x, c), Scale(y, s))) == c * Dot(w, x) + s * Dot(w, y)
  {
    CombinationAt(x, y, c, s);
    assert w == [w[0], w[1], w[2]];
    DotOfDisplays(w[0], w[1], w[2], x[0] * c + y[0] * s, x[1] * c + y[1] * s, x[2] * c + y[2] * s);
    ProductWithCombination(w[0], x[0], y[0], c, s);
    ProductWithCombination(w[1], x[1], y[1], c, s);
    ProductWithCombination(w[2], x[2], y[2], c, s);
    Dot3(w, x); Dot3(w, y);
    MulBoth(c, Dot(w, x), w[0] * x[0] + w[1] * x[1] + w[2] * x[2]);
    MulBoth(s, Dot(w, y), w[0] * y[0] + w[1] * y[1] + w[2] * y[2]);
    DistributeOverThree(c, w[0] * x[0], w[1] * x[1], w[2] * x[2]);
    DistributeOverThree(s, w[0] * y[0], w[1] * y[1], w[2] * y[2]);
  }

  /** `x * p + y * q` for 3-vectors, component by component. */
  lemma CombinationAt(x: Vec3, y: Vec3, p: real, q: real)
    ensures Add(Scale(x, p), Scale(y, q)) == [x[0] * p + y[0] * q, x[1] * p + y[1] * q, x[2] * p + y[2] * q]
  {
    ScaleAt(x, p); ScaleAt(y, q); AddAt(Scale(x, p), Scale(y, q));
  }

  /** Subtracting the zero vector leaves a 3-vector unchanged. */
  lemma SubZero(v: Vec3)
    ensures Sub(v, Zero3) == v
  {
    SubAt(v, Zero3);
    assert forall i :: 0 <= i < 3 ==> Sub(v, Zero3)[i] == v[i];
  }

  /** Component-wise addition is associative and commutative on equal-length vectors:
      adding two deltas one after the other is adding their sum, in either order. */
  lemma AddAssociative(p: seq<real>, d1: seq<real>, d2: seq<real>)
    requires |p| == |d1| == |d2|
    ensures Add(Add(p, d1), d2) == Add(p, Add(d1, d2))
    ensures Add(Add(p, d1), d2) == Add(Add(p, d2), d1)
  {
    AddAt(p, d1); AddAt(p, d2); AddAt(d1, d2);
    AddAt(Add(p, d1), d2); AddAt(p, Add(d1, d2)); AddAt(Add(p, d2), d1);
    var lhs, rhs, swapped := Add(Add(p, d1), d2), Add(p, Add(d1, d2)), Add(Add(p, d2), d1);
    assert forall i :: 0 <= i < |p| ==> lhs[i] == rhs[i] == swapped[i];
  }

  /** The translation-free view of a matrix row: its first three entries
      (the source reinterprets `&mat[i]` as a `rowVec3_t`), so entry `j` of the
      view is entry `j` of the row. */
  function Axis(m: Mat34, i: nat): (v: Vec3)
    requires i < 3
    ensures forall j :: 0 <= j < 3 ==> v[j] == m[i][j]
  {
    m[i][..3]
  }

  /** Writes `v` through the `rowVec3_t` view of row `i`: the first three entries
      of that row change, its translation entry and the other rows do not. */
  function SetAxis(m: Mat34, i: nat, v: Vec3): (r: Mat34)
    requires i < 3
    ensures Axis(r, i) == v && r[i][3] == m[i][3]
    ensures forall j :: 0 <= j < 3 && j != i ==> r[j] == m[j]
  {
    m[i := v + [m[i][3]]]
  }

  /** Writes the translation entry `mat[i][3]`; the axis part of every row is kept. */
  function SetTranslation(m: Mat34, i: nat, t: real): (r: Mat34)
    requires i < 3
    ensures r[i][3] == t && Axis(r, i) == Axis(m, i)
    ensures forall j :: 0 <= j < 3 && j != i ==> r[j] == m[j]
  {
    m[i := m[i][3 := t]]
  }

  /** `loadIdentityMatrix`: the identity rotation with a zero translation column. */
  function IdentityRows(): (m: Mat34)
    ensures forall i, j :: 0 <= i < 3 && 0 <= j < 4 ==> m[i][j] == if i == j then 1.0 else 0.0
  {
    var r0: Vec4, r1: Vec4, r2: Vec4 := [1.0, 0.0, 0.0, 0.0], [0.0, 1.0, 0.0, 0.0], [0.0, 0.0, 1.0, 0.0];
    [r0, r1, r2]
  }
}
