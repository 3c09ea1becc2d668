/** The first-person camera: a position, an orientation and an up vector, moved by
    the movement keys and turned through its orientation. */
module Cameras {
  import opened Glam
  import opened CameraDirection
  import opened Keys
  import opened Results

  /** Units per second. */
  const Speed: real := 2.0

  const UnexpectedKey := "Key passed to handle movement that wasn't expected."

  /** The direction one movement key contributes, given the forward vector and the
      vector `get_left_dir` returns. W and S go along forward; A goes along
      `get_right_dir`, the negated left vector, and D along `get_left_dir`. */
  function KeyDir(forwards: Vec3, left: Vec3, k: KeyCode): Vec3
    requires IsMovementKey(k)
  {
    if k == KeyW then forwards
    else if k == KeyA then Neg(left)
    else if k == KeyS then Neg(forwards)
    else left
  }

  /** The sum of the key directions, accumulated in key order. */
  function MovementSum(forwards: Vec3, left: Vec3, keys: seq<KeyCode>): Vec3
    requires forall k :: k in keys ==> IsMovementKey(k)
    decreases |keys|
  {
    if keys == [] then Zero
    else Add(MovementSum(forwards, left, keys[..|keys| - 1]), KeyDir(forwards, left, keys[|keys| - 1]))
  }

  /** The signed number of presses along each axis. */
  function Net(keys: seq<KeyCode>, plus: KeyCode, minus: KeyCode): real {
    (multiset(keys)[plus] as real) - (multiset(keys)[minus] as real)
  }

  /** How far one key moves the W-minus-S count (+1 for W, -1 for S, else 0). */
  function StepWS(k: KeyCode): real {
    if k == KeyW then 1.0 else if k == KeyS then -1.0 else 0.0
  }

  /** How far one key moves the D-minus-A count (+1 for D, -1 for A, else 0). */
  function StepDA(k: KeyCode): real {
    if k == KeyD then 1.0 else if k == KeyA then -1.0 else 0.0
  }

  /** The accumulated direction depends only on how many times each key occurs:
      (#W - #S) forwards plus (#D - #A) left. */
  lemma {:induction false} MovementSumByCount(forwards: Vec3, left: Vec3, keys: seq<KeyCode>)
    requires forall k :: k in keys ==> IsMovementKey(k)
    ensures MovementSum(forwards, left, keys)
         == Add(Scale(forwards, Net(keys, KeyW, KeyS)), Scale(left, Net(keys, KeyD, KeyA)))
    decreases |keys|
  {
    if keys != [] {
      var init, last := keys[..|keys| - 1], keys[|keys| - 1];
      MovementSumByCount(forwards, left, init);
      NetSnoc(keys);
      CountStep(forwards, left, Net(init, KeyW, KeyS), Net(init, KeyD, KeyA), last);
    }
  }

  /** Appending a key changes each signed count by that key's own step. */
  lemma NetSnoc(keys: seq<KeyCode>)
    requires keys != []
    ensures Net(keys, KeyW, KeyS) == Net(keys[..|keys| - 1], KeyW, KeyS) + StepWS(keys[|keys| - 1])
    ensures Net(keys, KeyD, KeyA) == Net(keys[..|keys| - 1], KeyD, KeyA) + StepDA(keys[|keys| - 1])
  {
    assert keys == keys[..|keys| - 1] + [keys[|keys| - 1]];
    assert multiset(keys) == multiset(keys[..|keys| - 1]) + multiset{keys[|keys| - 1]};
  }

  /** Adding one key's direction to a count-weighted sum steps the weights. */
  lemma CountStep(forwards: Vec3, left: Vec3, fw: real, lf: real, k: KeyCode)
    requires IsMovementKey(k)
    ensures Add(Add(Scale(forwards, fw), Scale(left, lf)), KeyDir(forwards, left, k))
         == Add(Scale(forwards, fw + StepWS(k)), Scale(left, lf + StepDA(k)))
  {
  }

  /** Key order does not matter: any rearrangement of the keys moves the same way. */
  lemma MovementSumOrderIndependent(forwards: Vec3, left: Vec3, a: seq<KeyCode>, b: seq<KeyCode>)
    requires forall k :: k in a ==> IsMovementKey(k)
    requires multiset(a) == multiset(b)
    ensures forall k :: k in b ==> IsMovementKey(k)
    ensures MovementSum(forwards, left, a) == MovementSum(forwards, left, b)
  {
    forall k | k in b ensures IsMovementKey(k) {
      assert k in multiset(b);
    }
    assert Net(a, KeyW, KeyS) == Net(b, KeyW, KeyS) && Net(a, KeyD, KeyA) == Net(b, KeyD, KeyA);
    MovementSumByCount(forwards, left, a);
    MovementSumByCount(forwards, left, b);
  }

  /** Holding W and S as often as each other, and A and D as often as each other,
      gives no net direction. */
  lemma OpposingKeysCancel(forwards: Vec3, left: Vec3, keys: seq<KeyCode>)
    requires forall k :: k in keys ==> IsMovementKey(k)
    requires multiset(keys)[KeyW] == multiset(keys)[KeyS]
    requires multiset(keys)[KeyA] == multiset(keys)[KeyD]
    ensures MovementSum(forwards, left, keys) == Zero
  {
    MovementSumByCount(forwards, left, keys);
  }

  /** The position change for an accumulated direction: normalise-or-zero, then
      scale by the speed and the frame time. */
  function Displacement(m: MathLib, dir: Vec3, deltaTime: real): Vec3 {
    Scale(Scale(m.normalizeOrZero(dir), Speed), deltaTime)
  }

  /** With no net direction the position does not change, whatever the frame time. */
  lemma NoDirectionNoDisplacement(m: MathLib, deltaTime: real)
    requires Lawful(m)
    ensures Displacement(m, Zero, deltaTime) == Zero
  {
  }

  const WorldUp := Vec3(0.0, 1.0, 0.0)

  /** The up vector `Camera::default` derives from a forward vector: the forward
      vector crossed with (world up crossed with forward). */
  function CameraUp(forwards: Vec3): Vec3 {
    Cross(forwards, Cross(WorldUp, forwards))
  }

  /** For the default forward vector (0, 0, -1) the derived up vector is (0, 1, 0). */
  lemma DefaultUpIsWorldUp()
    ensures CameraUp(Vec3(0.0, 0.0, -1.0)) == WorldUp
  {
  }

  /** For the default forward vector, forward crossed with the derived up vector is
      (1, 0, 0): `get_left_dir`, which key D follows, points along +x. */
  lemma DefaultLeftIsPlusX()
    ensures Cross(Vec3(0.0, 0.0, -1.0), CameraUp(Vec3(0.0, 0.0, -1.0))) == Vec3(1.0, 0.0, 0.0)
  {
    DefaultUpIsWorldUp();
  }

  class Camera {
    const math: MathLib
    var pos: Vec3
    const dir: Direction
    const up: Vec3

    ghost predicate Valid()
      reads dir
    {
      dir.Valid() && dir.math == math
    }

    /** `Camera::default`: at (0, 0, 3) with the default orientation, and the up
        vector derived from the default forward vector (see `DefaultUpIsWorldUp`). */
    constructor(math: MathLib)
      requires Lawful(math)
      ensures Valid() && this.math == math && fresh(dir)
      ensures pos == Vec3(0.0, 0.0, 3.0)
      ensures dir.yaw == -90.0 && dir.pitch == 0.0
      ensures up == CameraUp(Vec3(0.0, 0.0, -1.0))
      ensures ForwardsDir() == Vec3(0.0, 0.0, -1.0) && LeftDir() == math.normalize(Vec3(1.0, 0.0, 0.0))
    {
      this.math := math;
      pos := Vec3(0.0, 0.0, 3.0);
      var cameraDir := new Direction(math);
      DefaultEulerDir(math);
      assert cameraDir.eulerDir == Vec3(0.0, 0.0, -1.0);
      up := CameraUp(cameraDir.eulerDir);
      dir := cameraDir;
      DefaultLeftIsPlusX();
    }

    /** `get_forwards_dir`: the orientation's (never stale) forward vector. */
    function ForwardsDir(): (v: Vec3)
      reads dir
      requires Valid()
      ensures v == EulerDir(math, dir.yaw, dir.pitch)
    {
      dir.eulerDir
    }

    /** `get_backwards_dir`: exactly opposite to forwards. */
    function BackwardsDir(): (v: Vec3)
      reads dir
      requires Valid()
      ensures Add(v, ForwardsDir()) == Zero
    {
      Neg(dir.eulerDir)
    }

    /** `get_left_dir`: the normalised cross product of forward and up. */
    function LeftDir(): (v: Vec3)
      reads dir
      requires Valid()
      ensures v == math.normalize(Cross(ForwardsDir(), up))
    {
      math.normalize(Cross(dir.eulerDir, up))
    }

    /** `get_right_dir`: exactly opposite to `get_left_dir`. */
    function RightDir(): (v: Vec3)
      reads dir
      requires Valid()
      ensures Add(v, LeftDir()) == Zero
    {
      Neg(math.normalize(Cross(dir.eulerDir, up)))
    }

    /** `handle_movement`: sum the direction of every key, then move by the
        normalised sum times speed times frame time. A key other than W, A, S, D
        aborts before the position is touched. Only the position changes. */
    method HandleMovement(keys: seq<KeyCode>, deltaTime: real) returns (r: Result<()>)
      requires Valid()
      modifies this`pos
      ensures Valid() && unchanged(dir)
      ensures r.Err? <==> exists k :: k in keys && !IsMovementKey(k)
      ensures r.Err? ==> pos == old(pos)
      ensures r.Ok? ==> pos == Add(old(pos), Displacement(math, MovementSum(ForwardsDir(), LeftDir(), keys), deltaTime))
    {
      var sum := Zero;
      var i := 0;
      while i < |keys|
        invariant 0 <= i <= |keys|
        invariant forall j :: 0 <= j < i ==> IsMovementKey(keys[j])
        invariant sum == MovementSum(ForwardsDir(), LeftDir(), keys[..i])
      {
        match keys[i] {
          case KeyW => sum := Add(sum, ForwardsDir());
          case KeyA => sum := Add(sum, RightDir());
          case KeyS => sum := Add(sum, BackwardsDir());
          case KeyD => sum := Add(sum, LeftDir());
          case _ =>
            assert keys[i] in keys;
            return Err(UnexpectedKey);
        }
        assert keys[..i + 1][..i] == keys[..i];
        i := i + 1;
      }
      assert keys[..i] == keys;
      pos := Add(pos, Scale(Scale(math.normalizeOrZero(sum), Speed), deltaTime));
      r := Ok(());
    }

    /** `pitch`: the camera inherits the orientation's pitch bound. */
    function Pitch(): (p: Degrees)
      reads dir
      requires Valid()
      ensures MinPitch <= p <= MaxPitch
    {
      dir.Pitch()
    }

    /** `yaw`: the orientation's yaw, the angle the forward vector is derived from. */
    function Yaw(): (y: Degrees)
      reads dir
      requires Valid()
      ensures ForwardsDir() == EulerDir(math, y, Pitch())
    {
      dir.yaw
    }

    method SetPitch(pitch: Degrees)
      requires Valid()
      modifies dir
      ensures Valid()
      ensures Pitch() == Clamp(pitch, MinPitch, MaxPitch) && Yaw() == old(Yaw())
    {
      dir.SetPitch(pitch);
    }

    method AdjustPitch(delta: Degrees)
      requires Valid()
      modifies dir
      ensures Valid()
      ensures Pitch() == Clamp(old(Pitch()) + delta, MinPitch, MaxPitch) && Yaw() == old(Yaw())
    {
      dir.AdjustPitch(delta);
    }

    method SetYaw(yaw: Degrees)
      requires Valid()
      modifies dir
      ensures Valid()
      ensures Yaw() == yaw && Pitch() == old(Pitch())
    {
      dir.SetYaw(yaw);
    }

    method AdjustYaw(delta: Degrees)
      requires Valid()
      modifies dir
      ensures Valid()
      ensures Yaw() == old(Yaw()) + delta && Pitch() == old(Pitch())
    {
      dir.AdjustYaw(delta);
    }
  }

  /** The arithmetic of the worked example: from (0, 0, 3), W alone for one second
      moves to (0, 0, 1), whatever the left vector. */
  lemma WalkForwardArithmetic(math: MathLib, left: Vec3)
    requires math.normalizeOrZero(Vec3(0.0, 0.0, -1.0)) == Vec3(0.0, 0.0, -1.0)
    ensures Add(Vec3(0.0, 0.0, 3.0), Displacement(math, MovementSum(Vec3(0.0, 0.0, -1.0), left, [KeyW]), 1.0))
         == Vec3(0.0, 0.0, 1.0)
  {
    assert [KeyW][..0] == [];
    assert MovementSum(Vec3(0.0, 0.0, -1.0), left, [KeyW]) == Vec3(0.0, 0.0, -1.0);
  }

  /** The worked example: the default camera, holding W for one second at speed 2,
      ends at (0, 0, 1), given that (0, 0, -1) normalises to itself. */
  method DefaultCameraWalksForward(math: MathLib) returns (p: Vec3)
    requires Lawful(math)
    requires math.normalizeOrZero(Vec3(0.0, 0.0, -1.0)) == Vec3(0.0, 0.0, -1.0)
    ensures p == Vec3(0.0, 0.0, 1.0)
  {
    var camera := new Camera(math);
    DefaultEulerDir(math);
    var forwards, left := camera.ForwardsDir(), camera.LeftDir();
    assert forwards == Vec3(0.0, 0.0, -1.0);
    assert forall k :: k in [KeyW] ==> IsMovementKey(k);
    var r := camera.HandleMovement([KeyW], 1.0);
    assert r.Ok?;
    assert camera.ForwardsDir() == forwards && camera.LeftDir() == left;
    WalkForwardArithmetic(math, left);
    p := camera.pos;
  }
}
