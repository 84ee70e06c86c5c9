/**
 * The transform components of a scene object (System.Numerics Vector3 and
 * Quaternion). Only their equality matters to the scene hierarchy, so each
 * single-precision component is kept as its IEEE-754 bit pattern and compared
 * the way C#'s `==` on float compares: a NaN equals nothing, not even itself,
 * and +0 equals -0. No arithmetic is modelled.
 */
module Transforms {

  /** An IEEE-754 binary32 value, as its bit pattern. */
  type Float = bv32

  const FloatOne: Float := 0x3F80_0000

  /** Exponent all ones and a non-zero fraction. */
  predicate IsNaN(f: Float) {
    (f >> 23) & 0xFF == 0xFF && f & 0x7F_FFFF != 0
  }

  /** +0 or -0. */
  predicate IsZero(f: Float) {
    f & 0x7FFF_FFFF == 0
  }

  /** C#'s `a == b` on float. */
  predicate FloatEquals(a: Float, b: Float) {
    !IsNaN(a) && !IsNaN(b) && (a == b || (IsZero(a) && IsZero(b)))
  }

  datatype Vector3 = Vector3(x: Float, y: Float, z: Float) {
    predicate HasNaN() { IsNaN(x) || IsNaN(y) || IsNaN(z) }
  }

  datatype Quaternion = Quaternion(x: Float, y: Float, z: Float, w: Float) {
    predicate HasNaN() { IsNaN(x) || IsNaN(y) || IsNaN(z) || IsNaN(w) }
  }

  /** Vector3.Zero, the default position. */
  const Zero: Vector3 := Vector3(0, 0, 0)
  /** Vector3.One, the default scale. */
  const One: Vector3 := Vector3(FloatOne, FloatOne, FloatOne)
  /** Quaternion.Identity, the default rotation. */
  const Identity: Quaternion := Quaternion(0, 0, 0, FloatOne)

  /** Vector3's `==` operator: component-wise float equality. */
  predicate Vector3Equals(a: Vector3, b: Vector3) {
    FloatEquals(a.x, b.x) && FloatEquals(a.y, b.y) && FloatEquals(a.z, b.z)
  }

  /** Quaternion's `==` operator: component-wise float equality. */
  predicate QuaternionEquals(a: Quaternion, b: Quaternion) {
    FloatEquals(a.x, b.x) && FloatEquals(a.y, b.y) && FloatEquals(a.z, b.z) && FloatEquals(a.w, b.w)
  }

  /** A value equals itself under C# `==` exactly when it holds no NaN. */
  lemma Vector3EqualsSelf(v: Vector3)
    ensures Vector3Equals(v, v) <==> !v.HasNaN()
  {
  }

  lemma QuaternionEqualsSelf(q: Quaternion)
    ensures QuaternionEquals(q, q) <==> !q.HasNaN()
  {
  }

  /** The defaults hold no NaN, so re-assigning them is a no-op. */
  lemma DefaultsAreNumbers()
    ensures !Zero.HasNaN() && !One.HasNaN() && !Identity.HasNaN()
    ensures !Vector3Equals(Zero, One)
  {
  }
}
