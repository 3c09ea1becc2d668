/** The camera's orientation: yaw and pitch in degrees, and the forward ("Euler")
    vector derived from them, which the object caches and recomputes after every
    change. */
module CameraDirection {
  import opened Glam

  type Degrees = real

  const MinPitch: Degrees := -89.0
  const MaxPitch: Degrees := 89.0

  /** `f32::clamp`: the point of [lo, hi] nearest to v. */
  function Clamp(v: real, lo: real, hi: real): (r: real)
    requires lo <= hi
    ensures lo <= r <= hi
    ensures lo <= v <= hi ==> r == v
    ensures v < lo ==> r == lo
    ensures hi < v ==> r == hi
  {
    if v < lo then lo else if hi < v then hi else v
  }

  function Abs(x: real): real {
    if x < 0.0 then -x else x
  }

  /** No point of the interval is closer to v than its clamp. */
  lemma ClampIsNearest(v: real, lo: real, hi: real, q: real)
    requires lo <= hi && lo <= q <= hi
    ensures Abs(Clamp(v, lo, hi) - v) <= Abs(q - v)
  {
  }

  /** The spherical-to-Cartesian conversion of (yaw, pitch), both in degrees. */
  function EulerDir(m: MathLib, yaw: Degrees, pitch: Degrees): Vec3 {
    var y := m.toRadians(yaw);
    var p := m.toRadians(pitch);
    Vec3(m.cos(y) * m.cos(p), m.sin(p), m.sin(y) * m.cos(p))
  }

  /** The default orientation's cached vector, (0, 0, -1), is the one the conversion
      gives for yaw -90 and pitch 0. */
  lemma DefaultEulerDir(m: MathLib)
    requires Lawful(m)
    ensures EulerDir(m, -90.0, 0.0) == Vec3(0.0, 0.0, -1.0)
  {
  }

  /** Where sin^2 + cos^2 = 1, the derived forward vector has unit length. */
  lemma {:induction false} EulerDirIsUnit(m: MathLib, yaw: Degrees, pitch: Degrees)
    requires Pythagorean(m)
    ensures LengthSquared(EulerDir(m, yaw, pitch)) == 1.0
  {
    var y := m.toRadians(yaw);
    var p := m.toRadians(pitch);
    var sy, cy, sp, cp := m.sin(y), m.cos(y), m.sin(p), m.cos(p);
    assert sy * sy + cy * cy == 1.0;
    assert sp * sp + cp * cp == 1.0;
    var v := EulerDir(m, yaw, pitch);
    calc {
      LengthSquared(v);
      (cy * cp) * (cy * cp) + sp * sp + (sy * cp) * (sy * cp);
      (cy * cy + sy * sy) * (cp * cp) + sp * sp;
      cp * cp + sp * sp;
      1.0;
    }
  }

  class Direction {
    const math: MathLib
    var yaw: Degrees
    var pitch: Degrees
    var eulerDir: Vec3

    /** The pitch bound holds and the cached vector is never stale. */
    ghost predicate Valid()
      reads this
    {
      && MinPitch <= pitch <= MaxPitch
      && eulerDir == EulerDir(math, yaw, pitch)
    }

    /** `Direction::default` (and `Direction::new`, which calls it). */
    constructor(math: MathLib)
      requires Lawful(math)
      ensures Valid() && this.math == math
      ensures yaw == -90.0 && pitch == 0.0 && eulerDir == Vec3(0.0, 0.0, -1.0)
    {
      this.math := math;
      yaw := -90.0;
      pitch := 0.0;
      eulerDir := Vec3(0.0, 0.0, -1.0);
      new;
      DefaultEulerDir(math);
    }

    /** `euler`: reading the cache gives the vector derived from the current angles. */
    function Euler(): (v: Vec3)
      reads this
      requires Valid()
      ensures v == EulerDir(math, yaw, pitch)
    {
      eulerDir
    }

    /** `pitch`: the stored pitch is always within the clamp bounds. */
    function Pitch(): (p: Degrees)
      reads this
      requires Valid()
      ensures MinPitch <= p <= MaxPitch
    {
      pitch
    }

    /** `update_euler` overwrites the cache from the angles. The second ensures
        follows from the first; it is spelled out as the idempotence `adjust_yaw`
        leans on, since it calls `update_euler` twice in a row. */
    method UpdateEuler()
      modifies this`eulerDir
      ensures eulerDir == EulerDir(math, yaw, pitch)
      ensures old(eulerDir) == EulerDir(math, yaw, pitch) ==> eulerDir == old(eulerDir)
    {
      eulerDir := EulerDir(math, yaw, pitch);
    }

    method SetYaw(yaw: Degrees)
      requires Valid()
      modifies this`yaw, this`eulerDir
      ensures Valid()
      ensures this.yaw == yaw && pitch == old(pitch)
    {
      this.yaw := yaw;
      UpdateEuler();
    }

    method AdjustYaw(delta: Degrees)
      requires Valid()
      modifies this`yaw, this`eulerDir
      ensures Valid()
      ensures yaw == old(yaw) + delta && pitch == old(pitch)
    {
      SetYaw(yaw + delta);
      ghost var cache := eulerDir;
      UpdateEuler();
      assert eulerDir == cache;
    }

    method SetPitch(pitch: Degrees)
      requires Valid()
      modifies this`pitch, this`eulerDir
      ensures Valid()
      ensures this.pitch == Clamp(pitch, MinPitch, MaxPitch) && yaw == old(yaw)
    {
      this.pitch := Clamp(pitch, MinPitch, MaxPitch);
      UpdateEuler();
    }

    method AdjustPitch(delta: Degrees)
      requires Valid()
      modifies this`pitch, this`eulerDir
      ensures Valid()
      ensures pitch == Clamp(old(pitch) + delta, MinPitch, MaxPitch) && yaw == old(yaw)
    {
      SetPitch(pitch + delta);
      ghost var cache := eulerDir;
      UpdateEuler();
      assert eulerDir == cache;
    }
  }
}
