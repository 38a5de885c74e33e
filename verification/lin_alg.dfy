/** The external linear-algebra library (`linAlg`) and the `math.h` functions the
    camera calls. Their code is not part of this model, so each one is an
    uninterpreted function value: a `Geometry` record is passed to the operations
    that call into the library, and nothing is assumed about what it computes. */
module LinAlg {
  import opened VecMath

  datatype Geometry = Geometry(
    /** `linAlg::normalizeRet(v)`: returns a normalised copy. */
    normalizeRet: Vec3 -> Vec3,
    /** `linAlg::normalize(v)`: normalises in place; the value written back. */
    normalize: Vec3 -> Vec3,
    /** `linAlg::cross(out, a, b)`: the value written to `out` for `a` and `b`. */
    cross: (Vec3, Vec3) -> Vec3,
    /** `linAlg::castMatrix(out4x4, in3x4)`: homogeneous extension of a 3x4 matrix. */
    castMatrix: Mat34 -> Mat4,
    /** `linAlg::inverse(out, in)` on 4x4 matrices. */
    inverse: Mat4 -> Mat4,
    /** `linAlg::loadTranslationMatrix(out, t)`. */
    loadTranslationMatrix: Vec3 -> Mat34,
    /** The affine 3x4 by 3x4 matrix product `l * r`. */
    mul: (Mat34, Mat34) -> Mat34,
    /** `cosf`, `sinf` and `sqrtf`. */
    cos: real -> real,
    sin: real -> real,
    sqrt: real -> real)

  /** `cosf` and `sinf` satisfy cos(t)^2 + sin(t)^2 == 1; assumed only where a
      lemma says so. */
  ghost predicate PythagoreanTrig(g: Geometry)
  {
    forall t: real :: g.cos(t) * g.cos(t) + g.sin(t) * g.sin(t) == 1.0
  }

  /** The one property of `sqrtf` this model ever relies on, and only where it says so. */
  ghost predicate SqrtNonNegative(g: Geometry)
  {
    forall x: real :: 0.0 <= x ==> 0.0 <= g.sqrt(x)
  }
}
