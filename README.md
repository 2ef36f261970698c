# Attack of the Orbs — a verified model of the camera, the input tick and the orb rules

Attack of the Orbs is a small first-person game: the player flies a camera
through a cube-shaped world of side 2 × 39, catching orbs that appear at random
positions. This project models its sequential core in Dafny:

- **`Geometry`** (`geometry.dfy`): the value types of the camera header.
  These are `Point3D`, `Vector3D` with its dot product and its in-place
  normalisation, and the degree-to-radian factor `rads`.
- **`CameraModel`** (`camera.dfy`): the `Camera` class. It holds the eye
  location and the right/up/forward basis `u`, `v`, `n`. It has:
  - the default pose;
  - the clamped `Slide`;
  - the planar rotations `Pitch`, `Yaw` and `Roll`;
  - the setters and getters;
  - `GetModelViewMatrix`, which overwrites the camera's own 16-entry buffer.

  Beside the class sit the specification functions: `RotatePair`, `Clamp`,
  `Candidate` and `ViewMatrix`. The lemmas prove orthonormality preservation,
  the clamp rules, the box invariant and the matrix's meaning.
- **`Controls`** (`controls.dfy`): the per-tick rule for the three
  acceleration counters of the input loop, as functions of the counters and
  the keys held. Lemmas give the bounds, the decay, and the speed of a held key.
- **`Capture`** (`capture.dfy`): what one collision sweep over the world list
  erases and keeps. This includes the skip of the entry that follows each
  erased one.
- **`Spawning`** (`spawning.dfy`): the coordinates of a newly released orb.
- **`Game`** (`game.dfy`): the `GameState` class. It holds the game's shared
  state (camera, key table, world, the captured and released counts, the
  flags and the counters), with these methods:
  - key press and release;
  - one input tick;
  - the collision sweep;
  - one spawn step of the game loop.

  `Valid()` is the invariant these keep:
  - counters in bounds;
  - eye inside the box;
  - every released orb is either still in the world or captured.

Doubles are modelled as exact reals.

- **Square root:** `Normalize` receives the square root it needs as a
  parameter `root`, with `root > 0` and `root * root` equal to the squared norm.
- **Rotations:** `Pitch`, `Yaw` and `Roll` receive the cosine and sine of
  their angle as a `Turn(c, s)` with `c * c + s * s == 1`. The turn stands for
  angle `Theta(d) = d * RADS` for the `d` degrees the source passes.
- **Random draws:** the spawn step receives its six draws as non-negative
  integers.

### Behaviour of the code worth knowing

The model keeps these behaviours of the code exactly as written:

- **Slide's x and z clamps** (`source/Camera.cpp:46-52` and
  `source/Camera.cpp:62-68`):
  - **What the code does:** the last branch of the x check (line 51) and of
    the z check (line 67) tests the candidate **y**, not x or z, against -39.
    So a too-low x or z snaps to -39 only when the candidate y is also ≤ -39;
    otherwise the coordinate keeps its previous value.
  - **In the model:** `ClampAxis` takes the candidate y as a separate
    argument, and `LowXKeepsPrevious` shows the effect.
- **Opposite keys are not mirror images** (`source/game.cpp:193-212`, and the
  same shape at `source/game.cpp:215-234`): the lowering key's block runs
  first, then the raising key's block, whose `else` branch decays a positive
  counter. So holding 'w' takes 1 to 0, while holding 's' takes -1 to 1.
  `PairIsAsymmetric` states this.

## Model

| member | source | states |
|---|---|---|
| `Geometry.ThetaIsDegreesToRadians` | source/Camera.h:14 | `rads` turns 180 degrees into pi and 360 degrees into 2 pi, each to within 2e-8, and the conversion is odd |
| `Geometry.DotSymmetric` | source/Camera.h:28-31 | `a.dot(b) == b.dot(a)` |
| `Geometry.DotSelf` | source/Camera.h:28-31 | `v.dot(v)` is x² + y² + z² and never negative |
| `Geometry.Normalize` | source/Camera.h:33-40 | afterwards `length` is 1 and x² + y² + z² is 1; every component is the old one divided by the same positive root; a unit vector comes back unchanged |
| `CameraModel.RotatePairKeepsOrthonormal` | source/Camera.cpp:71-120 | with c² + s² = 1, the planar rotation of two vectors of an orthonormal frame leaves the frame orthonormal |
| `CameraModel.PitchKeepsFrame` | source/Camera.cpp:76-85 | pitch's rewrite of (V, N) keeps (U, V, N) orthonormal |
| `CameraModel.YawKeepsFrame` | source/Camera.cpp:93-102 | yaw's rewrite of (U, N) keeps (U, V, N) orthonormal |
| `CameraModel.RotateByNoTurn` | source/Camera.cpp:71-120 | with c = 1 and s = 0 a rotation is the identity |
| `CameraModel.RotateTwice` | source/Camera.cpp:71-120 | two successive rotations of a pair are one rotation by the sum of the two angles |
| `CameraModel.ComposeUnit` | source/Camera.cpp:71-120 | the sum of two angles is again on the unit circle, so repeated rotations stay within the domain |
| `CameraModel.RotateBack` | source/Camera.cpp:71-120 | rotating by an angle and then by its negation restores both vectors |
| `CameraModel.ClampAxisRules` | source/Camera.cpp:46-68 | per coordinate: \|candidate\| < 39 is taken; ≥ 39 snaps to 39; ≤ -39 snaps to -39 only when the candidate y is ≤ -39, otherwise the old value stays |
| `CameraModel.ClampYInBounds` | source/Camera.cpp:54-60 | after any slide, y lies in [-39, 39], whatever the starting point |
| `CameraModel.ClampKeepsBox` | source/Camera.cpp:36-69 | an eye inside [-39, 39]³ stays inside after any slide |
| `CameraModel.SlideByZero` | source/Camera.cpp:36-69 | `slide(0, 0, 0)` from inside the box leaves the eye where it is |
| `CameraModel.LowXKeepsPrevious` | source/Camera.cpp:46-52 | a push to x = -50 with y above -39 leaves x unchanged; with y also ≤ -39 every coordinate snaps to -39 |
| `CameraModel.ViewMatrixIsWorldToCamera` | source/Camera.cpp:138-150 | the matrix maps a world point p to the camera coordinates ((p - eye)·U, (p - eye)·V, (p - eye)·N) |
| `CameraModel.ViewMatrixInvertsPlacement` | source/Camera.cpp:138-150 | for an orthonormal frame, the matrix sends the point a slide targets with (du, dv, dn) back to (du, dv, dn) |
| `CameraModel.DefaultFrameOrthonormal` | source/Camera.cpp:19-21 | the default U, V, N (the world axes) are orthonormal |
| `CameraModel.DefaultViewMatrix` | source/Camera.cpp:138-150 | the default camera's matrix is the identity rotation with translation (0, 0, -35) |
| `CameraModel.Camera.constructor` | source/Camera.cpp:16-29 | eye (0, 0, 35); U, V, N the x, y, z axes with length 0; the eye inside the box; a fresh 16-entry buffer |
| `CameraModel.Camera.Slide` | source/Camera.cpp:36-69 | U, V, N untouched; the eye becomes the clamp of the moved eye; y ends in bounds; an eye inside the box stays inside |
| `CameraModel.Camera.Pitch` | source/Camera.cpp:71-86 | V and N become their rotation around U; U and the eye unchanged; orthonormality preserved |
| `CameraModel.Camera.Yaw` | source/Camera.cpp:88-103 | U and N become their rotation around V; V and the eye unchanged; orthonormality preserved |
| `CameraModel.Camera.Roll` | source/Camera.cpp:105-120 | U and V become their rotation around N; N and the eye unchanged; orthonormality preserved |
| `CameraModel.Camera.SetLocation` | source/Camera.cpp:122-127 | the eye becomes (x, y, z) unclamped; the basis is untouched |
| `CameraModel.Camera.SetLocationPoint` | source/Camera.cpp:132 | the eye becomes p unclamped; the basis is untouched |
| `CameraModel.Camera.GetLocation` | source/Camera.cpp:133 | returns the eye location and changes nothing |
| `CameraModel.Camera.GetU` | source/Camera.cpp:129 | returns U and changes nothing |
| `CameraModel.Camera.GetV` | source/Camera.cpp:130 | returns V and changes nothing |
| `CameraModel.Camera.GetN` | source/Camera.cpp:131 | returns N and changes nothing |
| `CameraModel.Camera.GetX` | source/Camera.cpp:134 | returns the eye's x and changes nothing |
| `CameraModel.Camera.GetY` | source/Camera.cpp:135 | returns the eye's y and changes nothing |
| `CameraModel.Camera.GetZ` | source/Camera.cpp:136 | returns the eye's z and changes nothing |
| `CameraModel.Camera.GetModelViewMatrix` | source/Camera.cpp:138-150 | returns the camera's own buffer, now holding the column-major matrix: U, V, N in rows 0–2; -eye·U, -eye·V, -eye·N in entries 12–14; 0, 0, 0, 1 in the bottom row |
| `Controls.StepKeepsBounds` | source/game.cpp:193-246 | one unpaused tick keeps u and n in [-100, 100] and v in [0, 100] |
| `Controls.RunKeepsBounds` | source/game.cpp:188-254 | any sequence of unpaused ticks keeps the counters in those bounds |
| `Controls.ReleasedDecays` | source/game.cpp:193-246 | with neither key of a pair held, a counter moves one step towards 0, and 0 stays 0 |
| `Controls.LowerOnly` | source/game.cpp:193-212 | 'w' alone lowers n by 2 from 2 or above, takes 1 to 0, lowers by 1 from 0 or below, and stops at -100 ('a' does the same to u) |
| `Controls.RaiseOnly` | source/game.cpp:193-212 | 's' alone raises n by 2 from below 0, by 1 from 0 or above, and stops at 100 ('d' does the same to u) |
| `Controls.BothHeld` | source/game.cpp:193-212 | with both keys of a pair held, the counter stays put, except -100, which goes to -99 |
| `Controls.PairIsAsymmetric` | source/game.cpp:193-212 | holding 'w' takes 1 to 0, but holding 's' takes -1 to 1 |
| `Controls.ReleaseDecaysToZero` | source/game.cpp:193-246 | with no key held for k ticks, each counter moves k steps towards 0 and stops there |
| `Controls.HoldingForwardReachesFloor` | source/game.cpp:193-212 | holding 'w' alone for k ticks from n ≤ 0 gives max(n - k, -100) |
| `Capture.SweepStep` | source/game.cpp:166-179 | at the head of the list: a point out of reach is kept; a point in reach is erased and counted, and the next point is kept without being examined |
| `Capture.SweepKeeps` | source/game.cpp:166-179 | the sweep's bookkeeping (survivors so far plus the unexamined rest) is kept when an entry out of reach is passed |
| `Capture.SweepErases` | source/game.cpp:166-179 | the bookkeeping is kept when an entry is erased and the index advances past the entry that slid into its slot |
| `Capture.ErasedExactly` | source/game.cpp:166-179 | a point is erased exactly when it is examined (it is first, or the point before it was not erased) and its squared distance is below 1.5² |
| `Capture.InReachSurvivorFollowsCapture` | source/game.cpp:166-179 | an in-reach point survives a sweep only directly behind a captured point |
| `Capture.SweepConserves` | source/game.cpp:160-180 | survivors plus captured is a permutation of the old world: nothing is added or duplicated, and one capture is counted per removal |
| `Capture.CapturedInReach` | source/game.cpp:173-174 | only points within squared distance 1.5² of the eye are removed |
| `Capture.NothingCapturedIff` | source/game.cpp:160-180 | a sweep captures nothing exactly when no point is within reach |
| `Capture.SkippedPointSurvives` | source/game.cpp:166-176 | for every eye e, with the world [e, e + (1, 0, 0)], the second point is in reach and still survives the sweep |
| `Capture.CaptureRadiusExample` | source/game.cpp:173 | from the origin, a point at distance 1 is captured and one at distance 2 survives |
| `Spawning.SpawnCoord` | source/game.cpp:103-105 | `(r1 % 39) - (r2 % 39)` with draws ≥ 0 lies in [-38, 38] |
| `Spawning.SpawnPointInside` | source/game.cpp:100-105 | a spawned point lies strictly inside (-39, 39) on every axis |
| `Spawning.SpawnCoordCovers` | source/game.cpp:103-105 | every value in [-38, 38] is produced by some pair of draws |
| `Game.PauseKeyRules` | source/game.cpp:258-276 | 'p' flips `paused` outside the splash screen and does nothing on it; escape on the splash screen unpauses, after which 'p' pauses again |
| `Game.GameState.constructor` | source/game.cpp:21-31 | start-up state: default camera (eye (0, 0, 35), U, V, N the world axes), no key held, empty world, both counts 0, the splash screen shown and paused, counters 0 |
| `Game.GameState.Keyboard` | source/game.cpp:49-52 | marks exactly the pressed key as held |
| `Game.GameState.KeyboardUp` | source/game.cpp:54-57 | marks exactly the released key as not held |
| `Game.GameState.DetectCollision` | source/game.cpp:160-180 | the world becomes the sweep's survivors in their old order; `orbsCaptured` grows by the number removed; nothing else changes; `Valid()` is kept |
| `Game.GameState.StepForward` | source/game.cpp:193-212 | n takes one step by the 'w'/'s' rule |
| `Game.GameState.StepSideways` | source/game.cpp:215-234 | u takes one step by the 'a'/'d' rule |
| `Game.GameState.StepJetpack` | source/game.cpp:237-246 | v takes one step by the space-bar rule |
| `Game.GameState.StepCounters` | source/game.cpp:193-251 | the counters take one step by the keys held; 't' flips turbo and is consumed; no other key changes |
| `Game.GameState.MenuKeys` | source/game.cpp:258-276 | escape on the splash screen is consumed, unpauses and leaves the splash screen; escape elsewhere ends the game; then 'p' outside the splash screen flips `paused` and is consumed |
| `Game.GameState.InputTick` | source/game.cpp:189-280 | paused: counters, eye, world and captures unchanged. Unpaused: counters step, the eye slides to the clamp of the counter-scaled move, the world is swept. Then the escape and pause rules. `Valid()` is kept |
| `Game.GameState.SpawnStep` | source/game.cpp:100-120 | unpaused: exactly one point, built from the draws, is appended at the end of the world and `orbsReleased` grows by 1; paused: nothing changes; `Valid()` is kept |

## Left out

- Rendering, GLUT window and callback plumbing, and `glutWarpPointer`. This
  includes all of `source/Renderer.cpp` and `source/Renderer.h` except the
  boundary `WORLDSCALE - 1`, which is the constant `SPAWN_BOUND`.
- Threads, `Sleep` and the `while (!gameOver)` loops. Each input tick and
  each spawn step is one sequential method. The unsynchronised sharing of
  the camera and the world between threads is not modelled.
- FMOD audio calls (`initSFX`, `closeSFX`, `updateListenerOrient`, `FSOUND_*`):
  these are foreign library calls with no effect on the modelled state.
- `readConfig`, `writeConfig`, `main`: file I/O and start-up. The
  `GameState` constructor gives the state `main` leaves behind.
- `updateScore`: the double-to-int truncation of the score is not modelled.
- The `sleepTime` formula of the game loop: the model has no notion of time.
- `mousePassiveHandler` and `mouseMotionHandler`: their angles are mouse
  offsets scaled by the sensitivity. Only the rotations they call
  (`Camera.Pitch`, `Camera.Yaw`, `Camera.Roll`) are modelled.
- `exit(0)` on escape outside the splash screen: modelled as setting
  `gameOver` and ending the tick.
- Floating point behaviour is not modelled:
  - rounding;
  - drift of the basis over many rotations;
  - the real values of `cos`, `sin` and `sqrt` (they are parameters, see above).
- `rand()` and `srand(time(NULL))`: the draws are parameters.
- `Camera::~Camera` and the buffer's deallocation: Dafny has no explicit
  deallocation.
- `Game.GameState.Valid`: it does not include the orthonormality of the
  camera basis, which a tick does not change anyway (`InputTick` ensures the
  basis is untouched). The constructor states the starting basis, which
  `DefaultFrameOrthonormal` proves orthonormal, and each rotation method
  proves orthonormality preservation on its own.
- `Geometry.Normalize`: requires `root > 0`, so the zero vector is outside its
  domain. There `normalize` computes 0/0 and produces NaN components, which
  exact reals cannot represent.
