# Geometry Jump 3D: the per-frame simulation core in Dafny

This project models the simulation core of a small 3D platformer. The player
jumps upward across a randomly generated staircase of floating platforms, and
the camera trails behind it. The core has three per-frame state updates:

- **World generator** (`World::initialize`). It rebuilds the platform list as a
  random walk. The walk starts with a fixed origin platform and takes 200
  steps. Each step takes five draws of `rand() % 100`.
- **Player controller** (`Player::updatePlayer`). Each frame it does the following:
  - sets the speed and lean targets from the keys;
  - smooths the speeds and lean angles toward those targets;
  - moves the player horizontally;
  - handles the debounced Q toggle between falling mode and free-fly mode;
  - applies gravity;
  - scans the platforms in order and lands on the first one hit;
  - counts landings, setting a checkpoint on every 20th;
  - applies the SPACE reset and the F / fall respawn.
- **Camera controller** (`Camera`). It does the following:
  - turns yaw and pitch from the cursor, with a first-sample guard and a pitch clamp;
  - derives the viewing direction and a level right vector from the angles;
  - moves the look-at point toward the player with per-axis exponential smoothing;
  - builds the view (eye 1.5 behind the look-at point) and the projection (aspect `width / height`).

Floating-point numbers are modelled as `real`. The source's `float` and `double`
are not modelled bit-exactly.

## Layout

- `geometry.dfy`
  - Module `Geometry`: 3-vectors, the component-wise product, the cross product,
    and 4x4 matrices applied to points.
  - Module `Numerics`:
    - `Option`;
    - `Library`, the foreign maths calls (`pow`, `normalize`, `sin`, `cos`), passed
      in as values, with the laws some lemmas assume (`PowDecays`, `PowZeroIsOne`,
      `NormalizeKeepsLevel`);
    - `Smooth`, the exponential smoothing step `v + (t - v) * (1 - k)`.
- `world.dfy` (module `WorldModel`):
  - `Platform`, and the walk as a recurrence (`WalkAfter`, `Generated`);
  - `class World`, whose `Initialize` loop is proved to build `Generated(draws, 200)`.
- `player.dfy` (module `PlayerModel`):
  - `PlayerState`, the value of all of a player's fields;
  - `Frame`, the whole update as a function of it;
  - `class Player`, whose `UpdatePlayer` is proved to perform exactly `Frame`.
    Its sub-methods do the same for each phase, e.g. `CollideWith` is proved
    to perform `Collide` over the platform loop with early exit.
- `camera.dfy` (module `CameraModel`):
  - `CameraState` and the step functions `Rotated`, `Followed`, `ViewOf` and
    `PerspectiveFor(AspectRatio(..))`;
  - `class Camera`, whose methods are proved to perform them.

The keys are a record of booleans. The cursor position, the window size and the
frame time are parameters. The random source is a sequence of draws in [0, 100),
consumed five per step in source order: y offset, new x half-size, new z
half-size, x offset, z offset.

The collision's crossing test uses the velocity after gravity, as the code does
(`jump/models/player.cpp:59,72`). It is not the velocity from the start of the
frame. `CrossingAfterGravity` states what this means in terms of the bottom
before the frame: the old bottom plus 4 * delta^2 must be above the top. So a
bottom that started up to 4 * delta^2 below the top still counts as crossing.

## Model

| member | source | states |
|---|---|---|
| Geometry.Level | jump/models/player.cpp:39 | `v * vec3(1, 0, 1)` keeps x and z and zeroes y |
| Geometry.Cross | jump/models/camera.cpp:35 | the cross product is orthogonal to both operands |
| Geometry.CrossUp | jump/models/camera.cpp:35 | `cross(d, up)` is (-d.z, 0, d.x): level before normalisation |
| Geometry.Diagonal | jump/models/world.cpp:7 | `mat4(d)` applied to any point scales it by d |
| Numerics.Smooth | jump/models/player.cpp:35-44 | a smoothing factor in [0, 1] lands between the value and the target; factor 1 keeps the value, factor 0 reaches the target |
| WorldModel.YOffset | jump/models/world.cpp:28 | every vertical step lies in [0.1, 0.496] |
| WorldModel.HalfExtent | jump/models/world.cpp:34-35 | every new x / z half-extent lies in [0.1, 0.793] |
| WorldModel.Offset | jump/models/world.cpp:37-43 | a horizontal step lies in [-m, 0.98 m] for the envelope m |
| WorldModel.Advance | jump/models/world.cpp:28-52 | one step rises by 0.1 to 0.496, takes new x / z half-extents in [0.1, 0.793], and moves x and z inside [-m, 0.98 m] for the envelope of the old and the new half-extents |
| WorldModel.WalkAfter | jump/models/world.cpp:27-52 | the walk's half-extents stay positive at every step |
| WorldModel.Generated | jump/models/world.cpp:15-55 | n steps give n + 1 platforms: the origin platform, then platform i at the walk's position after step i |
| WorldModel.StepRecurrence | jump/models/world.cpp:37-54 | platform i + 1 is platform i moved by that step's offsets; its half-extents are the step's new ones; the envelope uses platform i's half-extents as the previous ones |
| WorldModel.SizesBounded | jump/models/world.cpp:34-54 | every generated platform is 0.02 high with x / z half-extents in [0.1, 0.793] |
| WorldModel.OffsetsBounded | jump/models/world.cpp:37-49 | consecutive platforms are at most the envelope apart on x and z: in [-m, 0.98 m] |
| WorldModel.RisesEachStep | jump/models/world.cpp:28-54 | each platform is 0.1 to 0.496 higher than the one before |
| WorldModel.HeightsIncrease | jump/models/world.cpp:27-55 | heights strictly increase along the whole list, by at least 0.1 per step |
| WorldModel.World.constructor | jump/models/world.h:31 | a new world holds no platforms |
| WorldModel.World.ModelMatrix | jump/models/world.cpp:6-8 | the world's model matrix maps every point to itself |
| WorldModel.World.Initialize | jump/models/world.cpp:10-56 | the platform list is replaced by the 201 platforms of the walk, the origin platform first |
| PlayerModel.TargetsFor | jump/models/player.cpp:12-33 | speed targets are 2 / -2 / 0 by W and S and by D and A, opposite keys cancelling; lean targets are a tenth of the forward speed target and minus a tenth of the right speed target |
| PlayerModel.ToggleMode | jump/models/player.cpp:46-55 | after the toggle the mode is the falling mode of this frame and the toggle is armed exactly when Q is up; a flip sets the velocity to 2; nothing else changes |
| PlayerModel.Gravity | jump/models/player.cpp:58-59 | y moves by the old velocity times delta and the velocity drops by 4 delta; stepping back by the new velocity lands 4 delta^2 above the old height; nothing else changes |
| PlayerModel.OverlapIsCentreDistance | jump/models/player.cpp:64-71 | the strict X / Z overlap test holds exactly when on each axis the centres are closer than the two half-extents together |
| PlayerModel.CrossingOnlyDownward | jump/models/player.cpp:68-72 | the crossing test can only hold while the player moves down over a positive time |
| PlayerModel.FirstLandingFrom | jump/models/player.cpp:63-87 | the result is the first platform in list order that the player lands on, or none if there is no such platform |
| PlayerModel.Land | jump/models/player.cpp:74-83 | the bottom ends on the top; the bounce is max(2, -v/1.7); the counter advances, and the 20th landing resets it and checkpoints there; nothing else changes |
| PlayerModel.Collide | jump/models/player.cpp:62-88 | while moving down, the result is the landing on the first platform in list order that the player lands on; the state changes exactly when there is such a platform and the velocity is negative |
| PlayerModel.Respawns | jump/models/player.cpp:90-100 | SPACE makes the spawn point the checkpoint and otherwise it is kept; SPACE without F puts the player at the spawn point; F, or a height below -0.2 without SPACE, puts it 0.25 above the checkpoint; both with no velocity and no jumps; with neither nothing changes, and only position, velocity, counter and checkpoint ever change |
| PlayerModel.FreeFly | jump/models/player.cpp:101-108 | y moves by +2 delta for SPACE and -2 delta for Left Shift, so both or neither leave the player as it was; nothing else changes |
| PlayerModel.Frame | jump/models/player.cpp:6-111 | whatever branch runs, the player takes over the camera's vectors and the key targets and keeps its size |
| PlayerModel.FrameMode | jump/models/player.cpp:46-57 | after a frame the mode is the one after the Q toggle, and the toggle is armed exactly when Q is up |
| PlayerModel.HeldToggleFlipsOnce | jump/models/player.cpp:46-55 | holding Q for any number of frames flips the mode at most once, and only if the toggle was armed |
| PlayerModel.FrameKeepsJumpCount | jump/models/player.cpp:79-83 | the jump counter stays in [0, 20) from frame to frame |
| PlayerModel.CollisionActsOnFirstHit | jump/models/player.cpp:62-88 | while moving down, only the first platform landed on is acted on: the bottom ends on its top, y did not decrease, the bounce is at least 2; with no hit nothing changes |
| PlayerModel.CrossingAfterGravity | jump/models/player.cpp:58-72 | the crossing test, with the velocity after gravity, asks that the old bottom plus 4 delta^2 be above the top |
| PlayerModel.LandingsBelowCheckpoint | jump/models/player.cpp:79-83 | fewer than 20 landings from the count only count; the checkpoint stays |
| PlayerModel.TwentiethLandingCheckpoints | jump/models/player.cpp:79-83 | the 20th landing from a zero count resets the count and makes its landing position the checkpoint |
| PlayerModel.CheckpointMovesOnlyOnCycleOrReset | jump/models/player.cpp:79-100 | if the checkpoint changes, the player is falling and either SPACE moved it to the spawn point, or without SPACE the player moved down, landed this frame, the landing was the 20th, and the checkpoint is the landing position |
| PlayerModel.SpaceResets | jump/models/player.cpp:90-95 | SPACE in falling mode puts the player and the checkpoint at (0, 0.25, 0) with no velocity and no jumps |
| PlayerModel.RespawnAtCheckpoint | jump/models/player.cpp:96-100 | F or a fall below -0.2 respawns 0.25 above the checkpoint with no velocity and no jumps; below a 20th landing the checkpoint is unchanged |
| PlayerModel.FreshRespawnAtStart | jump/models/player.h:46-78 | a new player pressing F in its first frame is back at (0, 0.25, 0) |
| PlayerModel.SteerIsHorizontal | jump/models/player.cpp:35-44 | with non-zero level headings, steering moves the player only horizontally and leaves velocity, mode, counter and checkpoint alone |
| PlayerModel.FallingFrame | jump/models/player.cpp:57-100 | a falling frame without contact or respawn moves y by the old velocity times delta, then lowers the velocity by 4 delta |
| PlayerModel.FreeFlyFrame | jump/models/player.cpp:101-108 | free-fly leaves velocity, counter and checkpoint alone, and moves y by +2 delta for SPACE and -2 delta for Left Shift |
| PlayerModel.FrameSmoothsTowardTargets | jump/models/player.cpp:12-44 | each speed and lean angle ends between its old value and its key target; with no time passed none changes |
| PlayerModel.Player.constructor | jump/models/player.h:9-83 | a new player is at (0, 0.25, 0), half-size 0.05, falling, toggle armed, no jumps, checkpoint at the origin |
| PlayerModel.Player.UpdatePlayer | jump/models/player.cpp:6-111 | one call performs exactly `Frame` and keeps the counter in [0, 20) |
| PlayerModel.Player.Fall | jump/models/player.cpp:57-100 | the falling branch is gravity, then collision, then the respawn rules |
| PlayerModel.Player.ApplyGravity | jump/models/player.cpp:58-59 | y moves by the old velocity times delta; the velocity drops by 4 delta |
| PlayerModel.Player.RespawnOn | jump/models/player.cpp:90-100 | the SPACE reset, then the F / fall respawn |
| PlayerModel.Player.SteerBy | jump/models/player.cpp:9-44 | performs `Steer`: `Retargeted`, then `SpeedsSmoothed`, `MovedLevel` and `AnglesSmoothed`, in the source's order |
| PlayerModel.Player.Retarget | jump/models/player.cpp:9-33 | performs `Retargeted`: takes over the camera vectors and sets the key targets |
| PlayerModel.Player.SetTargets | jump/models/player.cpp:12-33 | the targets accumulated key by key from 0 are `TargetsFor(keys)` |
| PlayerModel.Player.SmoothSpeeds | jump/models/player.cpp:35-36 | performs `SpeedsSmoothed`: both speeds move toward their targets by pow(1e-5, delta) |
| PlayerModel.Player.MoveHorizontally | jump/models/player.cpp:38-41 | performs `MovedLevel`: the `Glide` along the level forward heading, then along the level right heading, each skipped at zero speed |
| PlayerModel.Player.SmoothAngles | jump/models/player.cpp:43-44 | performs `AnglesSmoothed`: both lean angles move toward their targets by pow(1e-4, delta) |
| PlayerModel.Player.ToggleOnQ | jump/models/player.cpp:46-55 | the debounced Q toggle |
| PlayerModel.Player.CollideWith | jump/models/player.cpp:62-88 | the loop with early exit lands on the first platform hit, as `Collide` states |
| PlayerModel.Player.LandOn | jump/models/player.cpp:74-83 | the landing updates the fields as `Land` states |
| CameraModel.ClampPitch | jump/models/camera.cpp:23-27 | the pitch ends in [-1.55, 1.55]; an in-range pitch is kept; any other goes to the nearer limit |
| CameraModel.Turn | jump/models/camera.cpp:9-27 | every sample is recorded; the first leaves the angles alone; afterwards the yaw grows by 0.0008 times the leftward movement, the pitch is in range, equals the accumulated pitch when that is in range, and is the nearer limit otherwise |
| CameraModel.PitchStaysInRange | jump/models/camera.cpp:17-27 | whatever the cursor does, an in-range pitch stays in range |
| CameraModel.YawTelescopes | jump/models/camera.cpp:17-21 | after any samples the yaw has moved by 0.0008 times the cursor's total movement to the left since the last recorded sample |
| CameraModel.YawFromFirstToLast | jump/models/camera.cpp:9-21 | for a camera that has not seen the cursor, the yaw depends only on the first and the last sample |
| CameraModel.Heading | jump/models/camera.cpp:29-33 | the direction is the library's `normalize` of (cos v sin h, sin v, cos v cos h); the trigonometry is foreign, so nothing is promised about it beyond what `RotationFrames` states |
| CameraModel.Rotated | jump/models/camera.cpp:9-35 | every sample is recorded; the first changes nothing else; afterwards the pitch is in range and the yaw grows by 0.0008 times the leftward movement |
| CameraModel.RotationFrames | jump/models/camera.cpp:29-35 | after a non-first sample the direction follows the angles and the right vector is the normalised (-d.z, 0, d.x), level when normalising keeps non-zero level vectors level and the direction is not vertical; the first sample moves neither |
| CameraModel.Approach | jump/models/camera.cpp:40-42 | with factors in [0, 1] each axis lands between the look-at point and the target; factors of 1 keep it; a point at its target stays |
| CameraModel.Followed | jump/models/camera.cpp:38-43 | the target becomes the player's position and only the target and the look-at point change; a look-at point already at the player stays there |
| CameraModel.FollowStaysBetween | jump/models/camera.cpp:38-43 | the target becomes the player's position; the look-at point never overshoots it on any axis; with no time passed it does not move |
| CameraModel.Eye | jump/models/camera.cpp:52 | the eye plus 1.5 times the direction is the look-at point |
| CameraModel.EyeAtDistance | jump/models/camera.cpp:51-55 | with a unit direction the eye is exactly 1.5 from the look-at point |
| CameraModel.ViewOf | jump/models/camera.cpp:51-55 | the view looks at the look-at point with world-up, from the eye 1.5 behind it along the direction |
| CameraModel.AspectRatio | jump/models/camera.cpp:61 | the ratio exists exactly when the height is non-zero; ratio times height is the width; positive for a positive window |
| CameraModel.InitialProjectionIsSixteenByNine | jump/models/camera.h:56 | the initial projection is the one every window of positive height with a 16:9 shape gets on resize |
| CameraModel.Camera.constructor | jump/models/camera.h:12-56 | a new camera has yaw 3.14, pitch 0, no cursor seen, and the 70 degree, 16:9, 0.1 to 100 projection |
| CameraModel.Camera.UpdateRotation | jump/models/camera.cpp:9-36 | one cursor sample performs `Rotated` and keeps the pitch in range |
| CameraModel.Camera.TurnBy | jump/models/camera.cpp:17-27 | the angle accumulation, the recording and the clamp perform `Turn` |
| CameraModel.Camera.UpdateLookingPosition | jump/models/camera.cpp:38-43 | performs `Followed`: the new target and the smoothed look-at point |
| CameraModel.Camera.GetProjectionMatrix | jump/models/camera.cpp:45-47 | returns the stored projection and changes nothing |
| CameraModel.Camera.GetViewMatrix | jump/models/camera.cpp:49-58 | stores and returns the view from 1.5 behind the look-at point toward it, with world-up |
| CameraModel.Camera.UpdateProjectionMatrix | jump/models/camera.cpp:60-62 | the projection is rebuilt with the window's aspect ratio |

## Left out

- The game loop, the window and GL setup, shaders, buffers and drawing (`jump/game.cpp`, `jump/game.h`): these are I/O and rendering. The order in which the loop calls the three updates is not modelled.
- The E / X keys in the game's key handling: E regenerates the platforms through `World::initialize` (modelled as `World.Initialize`) and re-uploads the buffers; X toggles the cursor mode. Only their debounce and the GL and cursor work are left out.
- `Player::getModelMatrix`: a rotation matrix built from trigonometry in the vector library. It is cosmetic.
- `glm::lookAt` and `glm::perspective`: the view and the projection are kept as the arguments they are built from (`View`, `Projection`). They are not modelled as matrices.
- `pow`, `normalize`, `sin` and `cos` are fields of a `Library` value. The lemmas that need facts about them state those facts as requirements: `pow(b, t)` in [0, 1] for b in (0, 1) and t >= 0, `pow(b, 0) = 1`, and that normalising keeps a non-zero level vector level.
- `SteerIsHorizontal`, `FallingFrame` and `FreeFlyFrame` require non-zero level headings. Normalising a zero vector divides by a zero length, so for a zero heading at non-zero speed the source's position becomes NaN. `real` has no NaN, so the lemmas say nothing about that input. From the second cursor sample on, the camera's headings come from a pitch clamped short of vertical, so they are non-zero. On the first frame the player receives the camera's vectors before any sample has set them (the first sample only records the cursor), and the three lemmas do not cover that frame.
- `srand(time(nullptr))` and `rand()`: they become a sequence of draws in [0, 100). `World.Initialize` requires at least 1000 draws.
- `glfwGetKey`, `glfwGetTime` and the cursor position: they become a key record, a frame time and cursor coordinates. Q is pressed or released; the model has no third key state.
- The `static lastStart` timestamp in `updatePlayer`: it is written but never read.
- Bit-exact `float` / `double` arithmetic, rounding and overflow: the model uses `real`. Constants are taken at their decimal values, e.g. `3.1f / 2.f` as 1.55 and `1.7f` as 1.7. The division by a zero height has no value and is `None`; in the source it gives an infinite or NaN aspect. `(float) width` is exact in the model.
- Fields the source leaves uninitialised are parameters of the constructors: the player's velocity, speeds, angles, targets and direction vectors, and the camera's look-at point, target, view matrix and direction vectors.
- `Player.UpdatePlayer`, `Fall`, `ApplyGravity`, `RespawnOn`, `CollideWith` and `LandOn` require the class invariant `Valid()` (a counter in [0, 20)), which the constructor establishes and every update keeps.
