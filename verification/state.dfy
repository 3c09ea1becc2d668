/** The application's input handling: the set of keys held down, the per-frame
    routing of held keys to the meshes' texture blend and to the camera, and the
    mapping of mouse motion to the camera's yaw and pitch. */
module AppState {
  import opened Glam
  import opened Keys
  import opened CameraDirection
  import opened Cameras
  import opened Results

  datatype ElementState = Pressed | Released

  /** How much one press of J or K moves every mesh's texture blend. */
  const BlendStep := 0.01

  /** The held keys after a keyboard event: a press inserts, a release removes. */
  function NextKeysDown(keysDown: set<PhysicalKey>, key: PhysicalKey, state: ElementState): (r: set<PhysicalKey>)
    ensures key in r <==> state == Pressed
    ensures forall k :: k != key ==> (k in r <==> k in keysDown)
  {
    match state
    case Pressed => keysDown + {key}
    case Released => keysDown - {key}
  }

  /** Presses do not stack: one release undoes any number of presses. */
  lemma PressTwiceReleaseOnce(keysDown: set<PhysicalKey>, key: PhysicalKey)
    ensures key !in NextKeysDown(NextKeysDown(NextKeysDown(keysDown, key, Pressed), key, Pressed), key, Released)
  {
  }

  /** The window-event state that input handling touches. */
  class App {
    var keysDown: set<PhysicalKey>

    /** `App::new`: no key held. */
    constructor()
      ensures keysDown == {}
    {
      keysDown := {};
    }

    /** The `KeyboardInput` arm of `window_event`. */
    method KeyboardInput(key: PhysicalKey, state: ElementState)
      modifies this`keysDown
      ensures keysDown == NextKeysDown(old(keysDown), key, state)
    {
      match state {
        case Pressed => keysDown := keysDown + {key};
        case Released => keysDown := keysDown - {key};
      }
    }
  }

  /** `device_event` for mouse motion (dx, dy): a tenth of dx turns the yaw, and a
      tenth of dy tilts the pitch the opposite way (moving the mouse up looks up). */
  method MouseMotion(camera: Camera, dx: real, dy: real)
    requires camera.Valid()
    modifies camera.dir
    ensures camera.Valid()
    ensures camera.Yaw() == old(camera.Yaw()) + dx / 10.0
    ensures camera.Pitch() == Clamp(old(camera.Pitch()) - dy / 10.0, MinPitch, MaxPitch)
  {
    camera.AdjustYaw(dx / 10.0);
    camera.AdjustPitch(-(dy / 10.0));
  }

  /** 1 when the key is held, 0 otherwise. */
  function Held(keysDown: set<PhysicalKey>, k: KeyCode): real {
    if Code(k) in keysDown then 1.0 else 0.0
  }

  /** The net change one `handle_keys` makes to every texture blend. */
  function BlendChange(keysDown: set<PhysicalKey>): real {
    BlendStep * (Held(keysDown, KeyK) - Held(keysDown, KeyJ))
  }

  /** The direction the held movement keys add up to: W minus S forwards, D minus A left. */
  function HeldMovement(keysDown: set<PhysicalKey>, forwards: Vec3, left: Vec3): Vec3 {
    Add(Scale(forwards, Held(keysDown, KeyW) - Held(keysDown, KeyS)),
        Scale(left, Held(keysDown, KeyD) - Held(keysDown, KeyA)))
  }

  /** Visiting one more key changes the blend total by that key's own step. */
  lemma BlendChangeStep(visited: set<PhysicalKey>, key: PhysicalKey)
    requires key !in visited
    ensures BlendChange(visited + {key}) == BlendChange(visited) +
      (if key == Code(KeyJ) then -BlendStep else if key == Code(KeyK) then BlendStep else 0.0)
  {
  }

  /** The movement keys collected so far: only movement keys, each held movement key
      of the visited ones exactly once. */
  ghost predicate Collected(movementKeys: seq<KeyCode>, visited: set<PhysicalKey>) {
    (forall k :: k in movementKeys ==> IsMovementKey(k)) &&
    forall m :: IsMovementKey(m) ==> multiset(movementKeys)[m] == if Code(m) in visited then 1 else 0
  }

  /** Visiting one more key collects it exactly when it is a movement key. */
  lemma CollectStep(movementKeys: seq<KeyCode>, visited: set<PhysicalKey>, key: PhysicalKey)
    requires Collected(movementKeys, visited) && key !in visited
    ensures key.Code? && IsMovementKey(key.code) ==> Collected(movementKeys + [key.code], visited + {key})
    ensures !(key.Code? && IsMovementKey(key.code)) ==> Collected(movementKeys, visited + {key})
  {
  }

  /** Collected keys with one of each held movement key add up to the held movement. */
  lemma NetIsHeld(movementKeys: seq<KeyCode>, keysDown: set<PhysicalKey>)
    requires Collected(movementKeys, keysDown)
    ensures Net(movementKeys, KeyW, KeyS) == Held(keysDown, KeyW) - Held(keysDown, KeyS)
    ensures Net(movementKeys, KeyD, KeyA) == Held(keysDown, KeyD) - Held(keysDown, KeyA)
  {
    assert IsMovementKey(KeyW) && IsMovementKey(KeyS) && IsMovementKey(KeyA) && IsMovementKey(KeyD);
  }

  /** One `for_each` over the meshes: add `delta` to every texture blend. */
  method AdjustBlends(blends: array<real>, delta: real)
    modifies blends
    ensures forall i :: 0 <= i < blends.Length ==> blends[i] == old(blends[i]) + delta
  {
    for i := 0 to blends.Length
      invariant forall j :: 0 <= j < i ==> blends[j] == old(blends[j]) + delta
      invariant forall j :: i <= j < blends.Length ==> blends[j] == old(blends[j])
    {
      blends[i] := blends[i] + delta;
    }
  }

  /** `handle_keys`: visit the held keys in any order; J and K lower and raise every
      mesh's texture blend, W, A, S and D are collected, anything else is ignored;
      then the camera moves once for the collected keys. Only movement keys reach
      the camera, so its unexpected-key abort cannot happen here, and the result
      does not depend on the visiting order. */
  method HandleKeys(keysDown: set<PhysicalKey>, blends: array<real>, camera: Camera, deltaTime: real)
    requires camera.Valid()
    modifies blends, camera`pos
    ensures camera.Valid() && unchanged(camera.dir)
    ensures forall i :: 0 <= i < blends.Length ==> blends[i] == old(blends[i]) + BlendChange(keysDown)
    ensures camera.pos == Add(old(camera.pos),
      Displacement(camera.math, HeldMovement(keysDown, camera.ForwardsDir(), camera.LeftDir()), deltaTime))
  {
    var movementKeys: seq<KeyCode> := [];
    var remaining := keysDown;
    ghost var visited: set<PhysicalKey> := {};
    assert BlendChange(visited) == 0.0;
    while remaining != {}
      invariant remaining + visited == keysDown && remaining !! visited
      invariant Collected(movementKeys, visited)
      invariant forall i :: 0 <= i < blends.Length ==> blends[i] == old(blends[i]) + BlendChange(visited)
      invariant camera.pos == old(camera.pos)
      decreases remaining
    {
      var key :| key in remaining;
      BlendChangeStep(visited, key);
      CollectStep(movementKeys, visited, key);
      match key {
        case Code(KeyJ) => AdjustBlends(blends, -BlendStep);
        case Code(KeyK) => AdjustBlends(blends, BlendStep);
        case Code(k) =>
          if IsMovementKey(k) {
            movementKeys := movementKeys + [k];
          }
        case Unidentified(_) =>
      }
      remaining := remaining - {key};
      visited := visited + {key};
    }
    var moved := camera.HandleMovement(movementKeys, deltaTime);
    assert moved.Ok?;
    MovementSumByCount(camera.ForwardsDir(), camera.LeftDir(), movementKeys);
    NetIsHeld(movementKeys, keysDown);
  }
}
