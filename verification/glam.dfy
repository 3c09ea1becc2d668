/** Three-component vectors over the reals, standing in for glam's `Vec3`, and the
    floating-point library functions that the core calls but that are not modelled. */
module Glam {
  datatype Vec3 = Vec3(x: real, y: real, z: real)

  const Zero := Vec3(0.0, 0.0, 0.0)

  function Add(a: Vec3, b: Vec3): Vec3 {
    Vec3(a.x + b.x, a.y + b.y, a.z + b.z)
  }

  function Neg(a: Vec3): Vec3 {
    Vec3(-a.x, -a.y, -a.z)
  }

  function Scale(a: Vec3, s: real): Vec3 {
    Vec3(a.x * s, a.y * s, a.z * s)
  }

  /** The cross product, exactly as glam computes it (up to rounding). */
  function Cross(a: Vec3, b: Vec3): Vec3 {
    Vec3(a.y * b.z - a.z * b.y, a.z * b.x - a.x * b.z, a.x * b.y - a.y * b.x)
  }

  function LengthSquared(a: Vec3): real {
    a.x * a.x + a.y * a.y + a.z * a.z
  }

  /** The transcendental and normalising operations are left uninterpreted: every
      model that uses them takes a `MathLib` and assumes of it only the laws below. */
  datatype MathLib = MathLib(
    toRadians: real -> real,
    sin: real -> real,
    cos: real -> real,
    normalize: Vec3 -> Vec3,
    normalizeOrZero: Vec3 -> Vec3)

  /** The exact values of sine and cosine at 0 and -90 degrees, and the defining
      property of `normalize_or_zero` on the zero vector. */
  predicate Lawful(m: MathLib) {
    && m.sin(m.toRadians(0.0)) == 0.0
    && m.cos(m.toRadians(0.0)) == 1.0
    && m.sin(m.toRadians(-90.0)) == -1.0
    && m.cos(m.toRadians(-90.0)) == 0.0
    && m.normalizeOrZero(Zero) == Zero
  }

  /** sin^2 + cos^2 = 1 at every angle. */
  ghost predicate Pythagorean(m: MathLib) {
    forall t :: m.sin(t) * m.sin(t) + m.cos(t) * m.cos(t) == 1.0
  }
}
