# Platformer core: animation transport, key edges, transforms and engine glue

This project models, in Dafny, the small sequential pieces of the AB-Platformer
game that carry logic of their own:

- **`Animation<T>`** (`Animations.Animation`, specified by `AnimationSpec`). This is the
  time-driven keyframe player. Its transport state is two flags (`isPlaying`,
  `isPaused`), two millisecond timestamps (`startTime`, `pauseTime`) and the
  cached elapsed time `time`. `Start`, `Stop`, `Play` and `Pause` change that
  state against the global clock `eTime`, which is passed in here as `now`.
  `GetFrame` applies the loop, clamp or stop policy at the end of the sequence
  and otherwise interpolates between two frames. Frame values are `real`. A
  frame duration is a whole number of milliseconds, `frameMs`, standing for
  `frameTime * 1000`. Timestamps are `unsigned long long`, so subtraction and
  addition wrap modulo 2^64 (`MachineInts.Sub64`, `MachineInts.Add64`). The
  loop advance `round(frameTime*1000) * (numFrames-1)` is a 32-bit unsigned
  product (`AnimationSpec.Cycle`). When `GetFrame` would read outside the frame
  array, which is undefined behaviour in C++, the model returns
  `OutOfRange(index)`.
- **`Key`** (`Input.Key`). This is a one-bit edge detector: `Press` and
  `Release` report whether they changed the key's state.
- **`Object`** (`Transform.Object`). This is the position / rotation / scale
  record with `Move` (add), `Scale` (component-wise product), the three
  setters and the three getters.
- **Physics records** (`PhysicsRecords`). `MaterialProperties` and
  `PhysicsData` are plain records.
- **Texture format choice** (`Textures.ChooseFormat`). This is the
  channel-count switch inside `Texture(const char*)`.
- **Converters** (`Conversions`). These convert vectors and quaternions
  between glm, PhysX and Assimp, and convert 4×4 matrices between Assimp's
  row-major and glm's column-major layout.
- **PhysX error callback** (`PhysicsErrors.ReportError`). This maps an error
  code to an exit status or a normal return.
- **Collision pair filter** (`FilterShader.DefaultFilterShader`). The
  `pairFlags` out-parameter is returned as part of a `Decision`.

The `Animation` class keeps the interpolation exactly as the code writes it.
The factor is the whole `time / frameTime`, not its fractional part, and the
loop policy advances by one cycle per call. Both are discussed under
"## Findings"; the corrected definitions stand beside the as-written ones.
Three behaviours of the code that are easy to miss:

- `GetFrame` is not a pure function of the elapsed time. It refreshes the
  cached time, clears both flags under the stop policy and moves `startTime`
  under the loop policy.
- When neither flag is set, `GetFrame` reuses the cached time.
- A loop cycle is `frameTime * (numFrames - 1)`, not `frameTime * numFrames`.

## Model

| member | source | states |
|---|---|---|
| `Animations.Animation.constructor` | platformer/include/base_types.h:898-909 | the frame array is a fresh copy of the first `n` given values; the loop policy defaults to stop; a frame duration of 0 is accepted except under loop; the animation starts stopped, not paused, with both timestamps and the cached time at 0 |
| `Animations.Animation.Start` | platformer/include/base_types.h:916-921 | new transport state is `AfterStart(old state, now)`; the class invariant (flags never both set) is kept |
| `Animations.Animation.Stop` | platformer/include/base_types.h:923-927 | new transport state is `AfterStop(old state)`; invariant kept |
| `Animations.Animation.Play` | platformer/include/base_types.h:929-942 | new transport state is `AfterPlay(old state, now)`; invariant kept |
| `Animations.Animation.Pause` | platformer/include/base_types.h:944-949 | new transport state is `AfterPause(old state, now)`; invariant kept |
| `Animations.Animation.GetFrame` | platformer/include/base_types.h:951-996 | the returned sample and the new transport state are exactly one `FrameStep` of the old state at `now`; invariant kept |
| `Animations.Animation.IsPlaying` | platformer/include/base_types.h:998-1001 | reports the playing flag of the transport state |
| `Animations.PauseResumeKeepsFrame` | platformer/include/base_types.h:929-961 | under clamp, the frame sampled while paused equals the frame sampled right after resuming, whatever time passed in between; loop is excluded because a paused call past the end re-measures the time from the clock (:975-979), and stop because such a call clears both flags (:984-988) so that `Play` restarts the animation (:937-938) |
| `AnimationSpec.ObservedTimeCases` | platformer/include/base_types.h:953-961 | the elapsed time `GetFrame` uses is `pauseTime - startTime` when paused, `now - startTime` when only playing, and the cached `time` when neither flag is set |
| `AnimationSpec.NeverBothFlags` | platformer/include/base_types.h:916-989 | `Start`, `Stop`, `Play` and `Pause` never leave both flags set, whatever the state before; `GetFrame` keeps them exclusive |
| `AnimationSpec.StartStopPauseEffects` | platformer/include/base_types.h:916-949 | `Start` sets `startTime = now`, playing, not paused; `Stop` clears both flags; `Pause` records `pauseTime = now`, paused, not playing; each keeps the other fields |
| `AnimationSpec.PlayShiftsStartTime` | platformer/include/base_types.h:929-942 | `Play` from paused shifts `startTime` by exactly `now - pauseTime`, so the elapsed time right after resuming equals the elapsed time at the pause (modulo 2^64); from stopped it sets `startTime = now`; while playing it keeps `startTime` |
| `AnimationSpec.ResumeContinuesElapsed` | platformer/include/base_types.h:929-961 | after `Pause` at `tp` and `Play` at any `tn`, the elapsed time is `tp - startTime`, the same one `GetFrame` saw during the pause |
| `AnimationSpec.ResumeContinuesSample` | platformer/include/base_types.h:929-995 | under clamp and stop, `GetFrame` right after resuming returns the frame a `GetFrame` on the paused state shows; the resume starts from the paused state, so under stop this holds when `GetFrame` was not called during a pause past the end (under clamp such a call changes only the cached time); loop is excluded because a paused call past the end re-measures the time from the clock and advances the start time (:975-979) |
| `AnimationSpec.StopSampledDuringPauseRestarts` | platformer/include/base_types.h:929-988 | under stop, a `GetFrame` during a pause that is past the end returns the last frame and clears both flags, so the next `Play` sets `startTime` to the clock and the elapsed time starts again at 0 |
| `AnimationSpec.FrameIndexBeforeEnd` | platformer/include/base_types.h:967-993 | an elapsed time before `frameTime * (numFrames - 1)` gives a frame index `k` with `k + 1 < numFrames` |
| `AnimationSpec.ClampPastEnd` | platformer/include/base_types.h:965-971 | under clamp, once the elapsed time reaches the end, `GetFrame` returns `frames[numFrames-1]` and changes no transport state (only the cached time); with a frame duration of 0 the end is reached at once |
| `AnimationSpec.StopPastEnd` | platformer/include/base_types.h:982-989 | under stop, once the elapsed time reaches the end, `GetFrame` returns `frames[numFrames-1]`; the new state is the old one with both flags cleared and the cached time refreshed; with a frame duration of 0 the end is reached at once |
| `AnimationSpec.StopStaysAtEnd` | platformer/include/base_types.h:951-989 | after stopping past the end, any later `GetFrame` (neither flag set, so the cached time is reused) returns `frames[numFrames-1]` again and leaves the state unchanged |
| `AnimationSpec.LoopPastEndAdvancesOneCycle` | platformer/include/base_types.h:973-979 | under loop, past the end, `startTime` advances by exactly one 32-bit cycle `frameMs * (numFrames-1)` per call, the elapsed time is recomputed from the clock, and the flags and pause time stay |
| `AnimationSpec.InterpolateBeforeEnd` | platformer/include/base_types.h:993-995 | before the end, interpolation blends `frames[k]` with `frames[k+1]`, both inside the array, by `time / frameTime` |
| `AnimationSpec.InterpolationInRange` | platformer/include/base_types.h:963-995 | whenever `GetFrame` reaches interpolation without a loop advance, it reads `frames[k]` and `frames[k+1]` with `k + 1 < numFrames`, and changes only the cached time |
| `AnimationSpec.ClampStopNeverOutOfRange` | platformer/include/base_types.h:963-995 | under clamp and stop, `GetFrame` never reads outside the frame array, from any state at any time, a frame duration of 0 included |
| `AnimationSpec.FirstFrameAtZero` | platformer/include/base_types.h:951-995 | at elapsed time 0, with a positive frame duration, `GetFrame` returns `frames[0]` (with 0 ms frames the end is reached at once and the last frame is returned; under loop this needs at least two frames) |
| `AnimationSpec.LoopOverrunsFrames` | platformer/include/base_types.h:973-995 | as written: two 100 ms frames, started at 0 and sampled at 350 ms, read frame index 2 of a 2-element array |
| `AnimationSpec.InterpolationOvershoots` | platformer/include/base_types.h:993-995 | as written: frames 0, 1, 5 of 100 ms under clamp, sampled at 100 ms, give 5 instead of the keyframe value 1 |
| `AnimationSpec.IntendedLoopTime` | platformer/include/base_types.h:973-979 | corrected loop: the elapsed time is wrapped into one cycle, so it is always before the end |
| `AnimationSpec.IntendedSampleBetweenKeys` | platformer/include/base_types.h:993-995 | corrected interpolation: uses frames `k` and `k+1` inside the array, passes through each keyframe, and stays between the two frames it blends |
| `AnimationSpec.IntendedLoopAtKeyframe` | platformer/include/base_types.h:973-995 | with both corrections, sampling a loop at `j` frame durations yields keyframe `j mod (numFrames-1)` |
| `Input.Key.constructor` | platformer/include/base_types.h:831-835 | a new key stores its key code and is not pressed |
| `Input.Key.GetCode` | platformer/include/base_types.h:837-840 | returns the stored key code |
| `Input.Key.Press` | platformer/include/base_types.h:842-850 | returns true iff the key was not pressed; afterwards it is pressed |
| `Input.Key.Release` | platformer/include/base_types.h:852-860 | returns true iff the key was pressed; afterwards it is not pressed |
| `Input.Key.Reset` | platformer/include/base_types.h:862-865 | afterwards the key is not pressed |
| `Input.PressTwiceReleaseTwice` | platformer/include/base_types.h:842-860 | a second `Press` in a row returns false, and so does a second `Release`; the key ends unpressed |
| `Transform.Object.constructor` | platformer/include/base_types.h:26-31 | the default object is at the origin, has the identity rotation (1,0,0,0) and unit scale |
| `Transform.Object.FromGlm` | platformer/include/base_types.h:33-38 | stores the given position, rotation and scale |
| `Transform.Object.FromPx` | platformer/include/base_types.h:40-45 | stores the PhysX position, rotation and scale component for component; converting them back gives the arguments |
| `Transform.Object.Move` | platformer/include/base_types.h:47-50 | adds the amount to the position; rotation and scale are unchanged |
| `Transform.Object.Scale` | platformer/include/base_types.h:52-57 | multiplies the scale component-wise; position and rotation are unchanged |
| `Transform.Object.SetPosition` | platformer/include/base_types.h:93-96 | overwrites the position only |
| `Transform.Object.SetRotation` | platformer/include/base_types.h:98-101 | overwrites the rotation only |
| `Transform.Object.SetScale` | platformer/include/base_types.h:103-108 | overwrites the scale only |
| `Transform.Object.GetPosition` | platformer/include/base_types.h:110-113 | returns the stored position |
| `Transform.Object.GetRotation` | platformer/include/base_types.h:115-118 | returns the stored rotation |
| `Transform.Object.GetScale` | platformer/include/base_types.h:120-123 | returns the stored scale |
| `Transform.TransformRoundTrips` | platformer/include/base_types.h:47-123 | moving by an amount and back, or scaling by ones, leaves the object unchanged in the real-valued model (float rounding can break this in the source); `GetRotation` after `SetRotation` returns the value set |
| `PhysicsRecords.Material` | platformer/include/base_types.h:10-16 | a material given only its three coefficients is not a trigger |
| `Textures.ChooseFormat` | platformer/include/base_types.h:454-497 | with image data, `successful` holds iff the channel count is 1 to 4, and then the chosen format has exactly that many channels; any other count gives format R, `successful` false and an image buffer that is not released; without data, `successful` is false and the format is left unset |
| `Textures.FormatForOwnChannelCount` | platformer/include/base_types.h:461-479 | every format R, RG, RGB, RGBA is chosen, successfully, for exactly its own channel count |
| `Conversions.FromPxVec` | platformer/include/functions.h:52-55 | keeps x, y and z |
| `Conversions.FromGLMVec` | platformer/include/functions.h:57-60 | keeps x, y and z |
| `Conversions.VecRoundTrips` | platformer/include/functions.h:52-60 | `FromGLMVec(FromPxVec(v)) == v` and `FromPxVec(FromGLMVec(v)) == v` |
| `Conversions.FromPxQuat` | platformer/include/functions.h:62-65 | keeps w, x, y and z despite the different constructor orders |
| `Conversions.FromGLMQuat` | platformer/include/functions.h:67-70 | keeps w, x, y and z |
| `Conversions.FromAssimpQuat` | platformer/include/functions.h:72-75 | keeps w, x, y and z |
| `Conversions.QuatRoundTrips` | platformer/include/functions.h:62-75 | the PhysX and glm quaternion converters are mutually inverse; Assimp's reaches glm with the same components |
| `Conversions.Transpose` | platformer/include/functions.h:80-97 | entry (i, j) of the result is entry (j, i) of the input |
| `Conversions.FromAssimpMat` | platformer/include/functions.h:77-98 | `result[c][r] = m[r][c]` for every row and column |
| `Conversions.FromGLMMat` | platformer/include/functions.h:100-121 | `result[r][c] = m[c][r]` for every row and column |
| `Conversions.TransposeInvolutive` | platformer/include/functions.h:77-121 | transposing twice gives back the matrix |
| `Conversions.MatRoundTrips` | platformer/include/functions.h:77-121 | `FromGLMMat(FromAssimpMat(m)) == m` and `FromAssimpMat(FromGLMMat(m)) == m` |
| `PhysicsErrors.ReportError` | platformer/include/functions.h:21-39 | exits with -1 exactly for abort, internal error and out-of-memory; with -2 exactly for invalid operation and invalid parameter; returns for every other code |
| `PhysicsErrors.ExitStatusSeparatesCategories` | platformer/include/functions.h:26-38 | two terminating codes give the same exit status iff both are engine failures or both are misuse |
| `FilterShader.DefaultFilterShader` | platformer/include/functions.h:125-140 | the filter flags are always the default; if either object is a trigger, `pairFlags` is exactly the trigger defaults, otherwise the contact defaults plus touch-persists notification |
| `FilterShader.FilterProperties` | platformer/include/functions.h:130-139 | no pair is killed or suppressed; the decision is symmetric in the two objects; contacts are solved and persist-notified iff neither object is a trigger |

## Findings

| source | as written | input that shows it | evidently intended | confidence | as-written member | corrected member |
|---|---|---|---|---|---|---|
| platformer/include/base_types.h:973-995 | under the loop policy, past the end, `startTime` advances by one cycle per call only; if more than one further cycle has passed, the frame index lands past the array | 2 frames of 100 ms, `Start` at 0, first `GetFrame` at 350 ms: elapsed 250 ms after the advance, index 2 read from a 2-element array | wrap the elapsed time into one cycle (`elapsed mod cycle`) | not executed; the input is checked by the proof | `AnimationSpec.LoopOverrunsFrames` | `AnimationSpec.IntendedLoopAtKeyframe` |
| platformer/include/base_types.h:993-995 | the interpolation factor is the whole `time / frameTime`, so from the second frame on the value overshoots the segment | frames 0, 1, 5 of 100 ms, clamp, sampled at 100 ms: 5 instead of 1 | blend by the fractional part `time / frameTime - frame` | not executed; the input is checked by the proof | `AnimationSpec.InterpolationOvershoots` | `AnimationSpec.IntendedSampleBetweenKeys` |

The `Animation` class itself keeps both behaviours as written. The corrected
definitions (`IntendedLoopTime`, `IntendedSample`) are stated and proved beside
it.

## Left out

- `Object::Rotate` (base_types.h:59-91) is left out. It is a float Hamilton
  product followed by `glm::modf`-based "wrapping"; the floating-point
  behaviour is not modelled.
- `Object::LocalToWorldPoint` (base_types.h:125-132) is left out. It is
  matrix and quaternion float maths.
- `Camera`, `File`, `Shader`, `GLFramebuffer`, `GLBuffer`, `GLObject` and
  `PrintGLErrors` are left out. They cover trigonometry, file I/O and
  graphics-driver calls.
- The texture loading, the graphics-driver calls in `Texture(const char*)`
  and the default `Texture()` constructor are left out. Only the format
  choice is modelled.
- The message printed by `reportError` and its wait for Enter are left out.
  So is the process exit itself: the exit is returned as a value.
- `DefaultFilterShader`'s filter data, constant block and block size are not
  modelled. The code never reads them.
- The `FromAssimpVec` overloads (functions.h:42-50) are left out. They are
  only used by mesh import, which is not part of this model.
- `Animation()` (the default constructor, with `numFrames = 0`) is left out.
  `GetFrame` on it would compute `numFrames - 1` in unsigned arithmetic and
  read through the null `frames` pointer. The model requires at least one frame.
- `Animation<T>`'s destructor is left out: memory release is not modelled.
  The value type `T` is fixed to `real`.
- `Animations.Animation.GetFrame` works on exact milliseconds. `frameTime`
  is exactly `frameMs / 1000`, and the float conversions of the elapsed time
  are not modelled. So is float rounding in the comparisons and in the
  interpolation. A frame duration of 0 is modelled: under clamp and stop the
  end time is 0, so every call returns the last frame before any division.
  Under loop it would divide by zero at line 993, so the constructor rejects
  it there.
- `Transform.Object.Move` and `Transform.Object.Scale` work on exact reals.
  glm's `vec3` arithmetic is single-precision float and rounds, so moving by
  an amount and back can lose the position (1 + 1e8 - 1e8 is 0 in float).
  `Transform.TransformRoundTrips` holds for the real-valued model only.
- `Animations.Animation.GetFrame` reports any frame index at or beyond
  `numFrames` as `OutOfRange`. It does not model what the undefined read or
  the float-to-`unsigned int` conversion would produce.
- `Vertex`, `BoxCollider` and `CylinderCollider` are left out. They are plain
  records with no operations.
- The SDL initialisation, the event loop, `quit` and the key bindings
  (main.cpp, types.h, defines.h) are left out. They are windowing and process
  plumbing.
- The character controller, pistons, the contact router and the level
  lifecycle are not part of this model. Their code is in none of the modelled
  files.
