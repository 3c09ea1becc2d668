# learnogl-rs core, modelled in Dafny

learnogl-rs is a tutorial OpenGL demo in Rust. Its window, GPU buffers and draw
calls are plumbing. Around them sit a few small, single-threaded stateful pieces,
and this project models those pieces and proves what they promise:

- **Camera orientation** (`Direction`). Yaw and pitch are kept in degrees, and pitch
  is clamped to [-89, 89]. A forward ("Euler") vector is cached and recomputed after
  every change. The invariant `Direction.Valid` says the pitch is in bounds and the
  cache matches the angles; every setter keeps it.
- **Camera movement** (`Camera.handle_movement`). The direction of every key held is
  summed. The sum is normalised (or zero) and scaled by speed and frame time, and
  the position moves by the result. A key other than W, A, S or D aborts.
- **Light write-through.** Point, spot and direction lights each keep an attribute
  record. Every setter changes one field and then uploads the whole record to named
  shader uniforms. The older `DirectionalLight` object has no setter. It is a value,
  and its `sync` uploads its direction together with three constant colours.
  The `Light` capability is a tagged union over the three light kinds.
- **Shader uniform layer.** A location lookup yields an error when OpenGL reports
  -1. The `set_*` calls make the program current and write one uniform, or do
  nothing on a lookup error. `get_vec3` reads a value back.
- **Supporting state.** This covers four pieces:
  - the texture manager's name-to-texture table;
  - the frame timer's accumulator;
  - the set of held keys, and how held keys are routed to texture blends and the camera;
  - mouse motion turning the camera, and the C-string and triangle helpers.

The modelling choices are these:

- `f32` is modelled as `real`.
- `sin`, `cos`, `to_radians`, `normalize` and `normalize_or_zero` are fields of a
  `MathLib` value, left uninterpreted. Proofs assume only the laws in `Glam.Lawful`
  and `Glam.Pythagorean`. The worked example `Cameras.DefaultCameraWalksForward`
  also assumes that `normalize_or_zero` maps (0, 0, -1) to itself.
- The OpenGL context is the class `Shaders.Gl`. It holds:
  - a fixed table of uniform locations;
  - the current program;
  - the uniform values, keyed by (program, name);
  - the texture units, and the active unit that `glBindTexture` binds on.
- A Rust panic (an `unwrap` of a failed lookup, or the camera's `panic!`) is
  modelled as an `Err` result. The callers pass it straight on, so `Err` stands for
  "the program aborts here".
- A light's upload is a sequence of `Write`s. `Shaders.Upload` folds them into the
  uniform table. The `SyncLands` lemmas prove that every uniform of the record
  ends up holding its field. Each `SyncState` is split into runs of at most four
  writes (`SyncLighting`, `SyncAttenuation`, `SyncPlacement`, `SyncColours`). These
  are pieces of the one `sync_state` call, there to keep each proof small, and
  carry no row of their own.

Modules, one per source file: `Glam`, `Results`, `Keys` (support), `CameraDirection`,
`Cameras`, `Shaders`, `PointLights`, `SpotLights`, `DirectionLights`, `Lights`,
`DirectionalLights`, `Textures`, `Helpers`, `Timers`, `AppState`.

## Model

| member | source | states |
|---|---|---|
| CameraDirection.Clamp | src/camera/direction.rs:43-46 | the result lies in [lo, hi]; it is v when v is in range, otherwise the bound v overshoots |
| CameraDirection.ClampIsNearest | src/camera/direction.rs:43-46 | no point of [lo, hi] is nearer to v than its clamp |
| CameraDirection.DefaultEulerDir | src/camera/direction.rs:53-61 | the default cached vector (0,0,-1) is the one the conversion gives for yaw -90, pitch 0 |
| CameraDirection.EulerDirIsUnit | src/camera/direction.rs:18-26 | where sin²+cos²=1, the derived forward vector has length 1 |
| CameraDirection.Direction.constructor | src/camera/direction.rs:53-61 | the default is yaw -90, pitch 0, cache (0,0,-1), and the invariant holds |
| CameraDirection.Direction.Euler | src/camera/direction.rs:15-17 | the cached vector is the conversion of the current yaw and pitch (never stale) |
| CameraDirection.Direction.Pitch | src/camera/direction.rs:40-42 | the stored pitch is always within [-89, 89] |
| CameraDirection.Direction.UpdateEuler | src/camera/direction.rs:18-26 | the cache becomes the conversion of (yaw, pitch); when it already was, it is unchanged (idempotent) |
| CameraDirection.Direction.SetYaw | src/camera/direction.rs:31-34 | yaw is stored unclamped; pitch unchanged; invariant (bound and fresh cache) kept |
| CameraDirection.Direction.AdjustYaw | src/camera/direction.rs:35-38 | yaw becomes old yaw + delta; pitch unchanged; the second `update_euler` changes nothing |
| CameraDirection.Direction.SetPitch | src/camera/direction.rs:43-46 | pitch becomes the clamp of the argument to [-89, 89]; yaw unchanged; invariant kept |
| CameraDirection.Direction.AdjustPitch | src/camera/direction.rs:47-50 | pitch becomes clamp(old pitch + delta); yaw unchanged; invariant kept |
| Cameras.MovementSumByCount | src/camera.rs:36-48 | the summed direction is (#W − #S)·forward + (#D − #A)·left, whatever the key order |
| Cameras.MovementSumOrderIndependent | src/camera.rs:36-48 | any rearrangement of the keys gives the same summed direction |
| Cameras.OpposingKeysCancel | src/camera.rs:23-34 | with W and S held equally often, and A and D equally often, the sum is zero |
| Cameras.NoDirectionNoDisplacement | src/camera.rs:47-48 | a zero sum (e.g. no keys) moves the camera by nothing |
| Cameras.DefaultUpIsWorldUp | src/camera.rs:78-81 | the default camera's derived up vector is (0,1,0) |
| Cameras.DefaultLeftIsPlusX | src/camera.rs:26-28 | for the default forward vector, forward × derived up is (1,0,0): `get_left_dir` (key D) points along +x |
| Cameras.Camera.constructor | src/camera.rs:72-88 | the default camera is at (0,0,3) with the default orientation and the derived up vector; it faces (0,0,-1) and its left vector is normalize((1,0,0)) |
| Cameras.Camera.ForwardsDir | src/camera.rs:29-31 | forward is the conversion of the current yaw and pitch |
| Cameras.Camera.BackwardsDir | src/camera.rs:32-34 | backward plus forward is zero |
| Cameras.Camera.LeftDir | src/camera.rs:26-28 | left is the normalised cross product of the current forward vector with up |
| Cameras.Camera.RightDir | src/camera.rs:23-25 | right plus left is zero |
| Cameras.Camera.HandleMovement | src/camera.rs:36-49 | Err exactly when some key is not W/A/S/D, and the position is then untouched; otherwise pos = old pos + normalize_or_zero(key sum)·speed·dt; orientation unchanged |
| Cameras.Camera.Pitch | src/camera.rs:51-53 | the camera's pitch is within [-89, 89] |
| Cameras.Camera.Yaw | src/camera.rs:61-63 | the reported yaw, with the reported pitch, is the angle pair the forward vector derives from |
| Cameras.Camera.SetPitch | src/camera.rs:54-56 | delegates: pitch clamped, yaw unchanged, invariant kept |
| Cameras.Camera.AdjustPitch | src/camera.rs:57-59 | delegates: pitch = clamp(old + delta), yaw unchanged |
| Cameras.Camera.SetYaw | src/camera.rs:64-66 | delegates: yaw stored, pitch unchanged |
| Cameras.Camera.AdjustYaw | src/camera.rs:67-69 | delegates: yaw = old + delta, pitch unchanged |
| Cameras.WalkForwardArithmetic | src/camera.rs:36-49 | from (0,0,3), the key W alone for 1 s at speed 2 along (0,0,-1) ends at (0,0,1), whatever the left vector |
| Cameras.DefaultCameraWalksForward | src/camera.rs:36-49 | the default camera holding W for 1 s ends at (0,0,1), given that (0,0,-1) normalises to itself |
| Shaders.UploadLands | src/shader.rs:103-113 | a write that no later write overrides is what the uniform holds afterwards |
| Shaders.UploadFrame | src/shader.rs:103-113 | uniforms of other programs or names not written keep their values |
| Shaders.UploadAllLand | src/shader.rs:103-113 | with distinct names every write of a record upload lands |
| Shaders.Shader.GetUniformId | src/shader.rs:172-185 | Err exactly when the location is -1, with its message; otherwise Ok(location) |
| Shaders.Shader.Enable | src/shader.rs:41-49 | the program `get_id` reports becomes current |
| Shaders.Shader.SetValue | src/shader.rs:51-142 | on a missing name Err and nothing changes; otherwise the program is current and only that uniform is written |
| Shaders.Shader.SetBool | src/shader.rs:51-62 | as SetValue, writing the integer 1 or 0 |
| Shaders.Shader.SetInt | src/shader.rs:64-76 | as SetValue, writing the i32 |
| Shaders.Shader.SetFloat | src/shader.rs:78-89 | as SetValue, writing the float |
| Shaders.Shader.SetVec2 | src/shader.rs:91-102 | as SetValue, writing the pair |
| Shaders.Shader.SetVec3 | src/shader.rs:103-114 | as SetValue, writing the vector |
| Shaders.Shader.SetMat4 | src/shader.rs:131-142 | as SetValue, writing the 16 floats |
| Shaders.Shader.GetVec3 | src/shader.rs:115-130 | Err exactly on a missing name (program not made current); otherwise the first three floats of the stored value |
| Shaders.Shader.GetUniform | src/shader.rs:186-194 | aborts exactly on a missing name; otherwise a handle with the program and the location |
| Shaders.SetThenGetVec3 | src/shader.rs:103-130 | `get_vec3` after `set_vec3` on an active name reads back the vector |
| PointLights.Decimal | src/light/point.rs:73-109 | the `{index}` rendering is non-empty, all digits, with no leading zero |
| PointLights.ParseDecimalOfDecimal | src/light/point.rs:73-109 | the decimal rendering of the index reads back as the index |
| PointLights.DigitRunOf | src/light/point.rs:73-109 | the digits of the index end where `]` begins |
| PointLights.PointName | src/light/point.rs:73-109 | every name starts with `pointLights[<index>].` |
| PointLights.PointNameInjective | src/light/point.rs:73-109 | equal names mean equal index and equal field: slots never share a uniform |
| PointLights.SyncLands | src/light/point.rs:69-113 | after a sync each of the seven `pointLights[index].*` uniforms holds its field |
| PointLights.SyncLeavesOtherSlots | src/light/point.rs:69-113 | a sync of slot i leaves every uniform of slot j ≠ i as it was |
| PointLights.NoDirectionUniform | src/light/point.rs:69-113 | no uniform a point light uploads is named `pointLights[<index>].direction` |
| PointLights.LightCube.constructor | src/light/point.rs:123-130 | the cube starts at the given position with no zoom requests |
| PointLights.LightCube.SetPos | src/light/point.rs:137-141 | the cube's position becomes the given one |
| PointLights.LightCube.AdjustZoom | src/light/point.rs:153-155 | the zoom request is recorded, and nothing else changes |
| PointLights.PointLightAttributes.constructor | src/light/point.rs:42-59 | the record starts at the default values |
| PointLights.PointLightAttributes.Writes | src/light/point.rs:69-113 | seven writes, all under the light's own `pointLights[<index>].` prefix |
| PointLights.PointLightAttributes.New | src/light/point.rs:42-60 | Ok exactly when every name of the default record (`DefaultWrites`) has a location, so a missing uniform aborts; on success the defaults are stored and their upload is what the uniforms hold |
| PointLights.PointLightAttributes.SetPos | src/light/point.rs:61-64 | only the position changes; then the whole record is uploaded; Ok exactly when all seven names exist |
| PointLights.PointLightAttributes.SyncState | src/light/point.rs:69-113 | Ok exactly when all seven names exist; then the uniforms are the upload of the record and the program is current |
| PointLights.PointLight.Assemble | src/light/point.rs:116-120 | the light holds its index, cube and record |
| PointLights.PointLight.New | src/light/point.rs:123-130 | Ok exactly when every name of the default record has a location; then a cube at the default position and a freshly uploaded record holding every default: position, ambient, diffuse, specular, constant, linear, quadratic |
| PointLights.PointLight.Pos | src/light/point.rs:134-136 | the position is the one the record uploads as `pointLights[<index>].position` |
| PointLights.PointLight.Dir | src/light/point.rs:144-146 | zero, and no direction uniform is uploaded |
| PointLights.PointLight.SetPos | src/light/point.rs:137-141 | pos() is the new position and the rest of the record is unchanged; on success the cube moves too; on abort the cube stays |
| PointLights.PointLight.AdjustZoom | src/light/point.rs:153-155 | forwarded to the cube |
| SpotLights.SpotLightAttributes.constructor | src/light/spot.rs:45-64 | the record starts at the defaults (position (0,2,0), direction (0,0,-1), cutoffs 12.5°/14.5°) |
| SpotLights.SpotLightAttributes.New | src/light/spot.rs:45-66 | Ok exactly when all ten names of the default record (`DefaultWrites`) have a location, so a missing uniform aborts; on success the defaults are stored and their upload is what the uniforms hold |
| SpotLights.SpotLightAttributes.SetPos | src/light/spot.rs:67-70 | only the position changes; then the whole record is uploaded |
| SpotLights.SpotLightAttributes.SetDir | src/light/spot.rs:75-78 | only the direction changes; then the whole record is uploaded |
| SpotLights.SpotLightAttributes.SyncState | src/light/spot.rs:83-125 | Ok exactly when all ten names exist; then the uniforms are the upload of the record |
| SpotLights.WriteNamesDistinct | src/light/spot.rs:83-125 | the ten uniform names are pairwise distinct |
| SpotLights.SyncLands | src/light/spot.rs:83-125 | after a sync every `spotLight.*` uniform holds its field, and the cutoffs hold cos(radians(angle)) |
| SpotLights.WritesArePrefixed | src/light/spot.rs:83-125 | every name written starts with `spotLight.` |
| SpotLights.SpotLight.Assemble | src/light/spot.rs:128-130 | the light holds its record |
| SpotLights.SpotLight.New | src/light/spot.rs:133-137 | Ok exactly when all ten default names have a location; then a freshly uploaded record holding every default: pos (0,2,0), dir (0,0,-1), the cutoffs, ambient, diffuse, specular, constant, linear, quadratic |
| SpotLights.SpotLight.Pos | src/light/spot.rs:141-143 | the position is the one uploaded as `spotLight.position` |
| SpotLights.SpotLight.Dir | src/light/spot.rs:149-151 | the direction is the one uploaded as `spotLight.direction` |
| DirectionLights.DirectionLightAttributes.constructor | src/light/direction.rs:31-42 | the record starts at direction (0,0,-1) and the default colours |
| DirectionLights.DirectionLightAttributes.New | src/light/direction.rs:31-44 | Ok exactly when all four names of the default record (`DefaultWrites`) have a location, so a missing uniform aborts; on success the defaults are stored and their upload is what the uniforms hold |
| DirectionLights.DirectionLightAttributes.SetDir | src/light/direction.rs:46-49 | only the direction changes (the colours are outside its frame); then the record is uploaded |
| DirectionLights.DirectionLightAttributes.SyncState | src/light/direction.rs:54-68 | Ok exactly when all four names exist; then the uniforms are the upload of the record |
| DirectionLights.SyncLands | src/light/direction.rs:54-68 | after a sync the four `dirLight.*` uniforms hold the record |
| DirectionLights.DirectionLight.Assemble | src/light/direction.rs:70-72 | the light holds its record |
| DirectionLights.DirectionLight.New | src/light/direction.rs:74-78 | Ok exactly when all four default names have a location; then a freshly uploaded default record |
| DirectionLights.DirectionLight.Pos | src/light/direction.rs:94-96 | zero, and no position uniform is uploaded |
| DirectionLights.DirectionLight.Dir | src/light/direction.rs:86-88 | the direction is the one uploaded as `dirLight.direction` |
| Lights.Light.Pos | src/light.rs:12 | point and spot: the position their record uploads; direction light: zero |
| Lights.Light.Dir | src/light.rs:15 | spot and direction: the direction their record uploads; point light: zero |
| Lights.Light.SetPos | src/light.rs:13 | the same light comes back; the direction light ignores the call; otherwise pos() is the new position, every other field of the record (and the cube's zoom log) is unchanged, and the record is uploaded; a point light's cube moves on success and stays on abort |
| Lights.Light.SetDir | src/light.rs:16 | the same light comes back; the point light ignores the call; otherwise dir() is the new direction, every other field of the record is unchanged, and the record is uploaded |
| Lights.Light.AdjustZoom | src/light.rs:19 | the default does nothing; the point light forwards to its cube |
| Lights.SetPosThenDir | src/light.rs:13-16 | chained set_pos then set_dir acts on the same light, which ends with the values it has: a spot light both, a point light the position, a direction light the direction |
| DirectionalLights.DirectionalLight.Sync | src/object/directional_light.rs:20-33 | Ok exactly when all four `light.*` names exist; then the uniforms are the upload; the light itself is a value and is unchanged |
| DirectionalLights.SyncLands | src/object/directional_light.rs:20-33 | `light.direction` holds the direction and the colour uniforms hold the three constants |
| Textures.TextureManager.constructor | src/renderer/texture.rs:16-18 | a new manager has no textures |
| Textures.TextureManager.GetTexture | src/renderer/texture.rs:68-70 | Some exactly for created names, giving their texture; reads only |
| Textures.TextureManager.CreateTexture | src/renderer/texture.rs:20-59 | the new texture is bound on the active unit; the sampler uniform gets the unit index (a missing uniform aborts and the table is unchanged); then the name maps to the new texture, replacing an earlier one, other names unchanged |
| Textures.TextureManager.BindTexture | src/renderer/texture.rs:61-66 | a name never created aborts; otherwise the unit is bound to the name's texture |
| Textures.CreateThenBind | src/renderer/texture.rs:20-66 | creating then binding by name binds the new texture to the unit |
| Helpers.AddNullTerm | src/helper.rs:1-6 | length one more than the input, the input as prefix, last byte NUL |
| Helpers.CStringOfAddNullTerm | src/helper.rs:1-6 | a name without NUL bytes reaches C intact |
| Helpers.CStringStopsAtNul | src/helper.rs:1-6 | a name with a NUL byte is cut short at its first NUL |
| Helpers.CenterOfTriangle | src/helper.rs:8-17 | the coordinate-wise mean of the corners, inside their bounding box |
| Helpers.CenterIsSymmetric | src/helper.rs:8-17 | the centre does not depend on the order of the corners |
| Helpers.CenterExample | src/helper.rs:38-43 | the test triangle's centre is (8/3, 5/3) in exact arithmetic |
| Timers.Timer.constructor | src/timer.rs:30-37 | a new timer has last delta 0 and elapsed 0 |
| Timers.Timer.DeltaTime | src/timer.rs:11-13 | the last frame length, never negative |
| Timers.Timer.Elapsed | src/timer.rs:21-23 | the sum of all frame lengths, between 0 and the time since creation |
| Timers.Timer.Reset | src/timer.rs:15-19 | last delta = time since the previous reset; elapsed grows by exactly it and never decreases |
| Timers.SumNonNegative | src/timer.rs:17 | a total of non-negative frame lengths is non-negative |
| AppState.NextKeysDown | src/state.rs:173-180 | a press makes the key held, a release makes it not held; other keys unchanged |
| AppState.PressTwiceReleaseOnce | src/state.rs:35 | presses do not stack: one release undoes two presses |
| AppState.App.constructor | src/state.rs:39-50 | no key is held at start |
| AppState.App.KeyboardInput | src/state.rs:169-180 | the held set becomes NextKeysDown of the event |
| AppState.MouseMotion | src/state.rs:202-206 | yaw += dx/10; pitch = clamp(pitch − dy/10) |
| AppState.BlendChangeStep | src/state.rs:220-225 | visiting one more key changes the blends by that key's own step |
| AppState.CollectStep | src/state.rs:226-229 | a visited key is collected exactly when it is W, A, S or D |
| AppState.NetIsHeld | src/state.rs:226-232 | the collected keys add up to held W − S and D − A |
| AppState.AdjustBlends | src/state.rs:220-225 | every mesh's texture blend moves by delta |
| AppState.HandleKeys | src/state.rs:211-233 | every blend moves by 0.01·(K held − J held); the camera moves once for the held W/A/S/D, whatever the visiting order; the unexpected-key abort cannot happen |

## Left out

- `Camera::view_matrix` (`look_at_rh`): a floating-point matrix construction, outside the vector model.
- `Light::draw`, the point light's cube drawing, and every other draw call: GPU output.
- `Shader::new`: file I/O and GLSL compilation. A shader is its linked program id.
- `TextureManager::create_texture`: image decoding and the texture upload are left out. The new texture object is a parameter. Only the bind on the active unit, the uniform write and the table insert are modelled.
- `glActiveTexture` is not called by any code in this model. The active unit starts at 0 and nothing changes it.
- `calculate_distance` and its test: square root on floats.
- f32 rounding: the exact-float literals of the helper tests hold only up to rounding, and `CenterExample` states the exact value.
- `get_vec3` and `Uniform::deref` read through a pointer to a temporary array that has already been dropped. The model gives the evidently intended read-back of the stored value.
- OpenGL keeps uniform values by location. The model keys them by (program, name), which is equivalent for the distinct names of one linked program.
- `LightCube`: the mesh behind it is a stand-in. It keeps only its position and a log of forwarded zoom requests; the mesh's own `set_pos`/`adjust_zoom` are not part of this model.
- The window bootstrap, resume, resize, redraw and mouse-wheel paths of `src/state.rs`, and `src/main.rs`, `src/gl.rs`, `src/renderer.rs`, `src/mesh.rs`, `src/model.rs`, `src/assimp.rs`, `src/logging.rs`, `build.rs`: none of these is part of this model.
- `src/state.rs:203-205` and `:232` call `&mut self` camera methods through a shared `&Camera`. The model gives them the mutation the camera methods perform.
- `src/renderer/texture.rs:56` calls `set_int` without a GL context. The model passes the context.
- Timer clock reads: `Instant::now()` and `Instant::elapsed()` are parameters of `Timers.Timer.constructor` and `Timers.Timer.Reset`. Monotonic readings are a precondition.
- The values of sine, cosine, `to_radians`, `normalize` and `normalize_or_zero` are uninterpreted. Only the laws `Glam.Lawful` and `Glam.Pythagorean` are assumed, where a contract needs them. The worked examples `Cameras.WalkForwardArithmetic` and `Cameras.DefaultCameraWalksForward` also require that `normalize_or_zero` maps (0, 0, -1) to itself.
- `Shaders.Shader.GetUniformId` looks the name up directly. The C-string lemmas of `Helpers` (`AddNullTerm`, `CStringOfAddNullTerm`, `CStringStopsAtNul`) stand on their own: they show that a NUL-free name reaches C intact, which is what the direct lookup takes for granted.
- PointLights.PointLightAttributes.SyncState: after an abort, the uniforms already written are not described, because the program ends there. The same holds for the spot, direction and directional syncs and for the `New`/`SetPos`/`SetDir` members that call them.
- The `DirectionalLight` constructor `new(dir)` and its `Default` are the datatype constructor and the constant `DirectionalLights.Default`. They carry no contract of their own.
