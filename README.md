# Arcade racing game core, modelled in Dafny

This project models the game-state logic of a browser racing demo (`game.js`). The player drives
along a randomly generated track against six AI cars. Reaching the finish line before any AI car
finishes moves the player to a longer, newly generated stage. Otherwise the cars are put back at
the start of the same stage. Rendering, the camera and the curve library are not modelled.

The mutable globals of the game loop live in one class, `Race.RaceWorld`: stage index, background
colour, track waypoints, `finishZ`, walls, the AI pool (an `array` of `AICar` records), and the
player's position, yaw and speed. Its methods mirror `createStage`, `resetCars`, `movePlayer`,
`moveAI` and `checkFinish`. Each method states the new state in terms of the old one. `Valid()`
holds between frames. The contracts of the constructor, `CreateStage`, `MovePlayer`, `MoveAI`,
`CheckFinish` and `Frame` state that they establish or preserve it. The helpers `ResetCars`, `Drive`
and `ResolveWalls` state only their effect, and their callers prove `Valid()` afterwards.

The loops that compute values (the waypoint random walk and the wall loop) are module-level methods.
Each is proved against a specification function (`Track.Waypoints`, `Walls.IsWallLayout`). The
properties of the track, the speed rule and the AI step are lemmas and function contracts about
those specifications.

Modules:
- `Basics`: `Option`, `Math.random` ranges, `Math.min` and `THREE.MathUtils.clamp`.
- `Track`: the waypoint random walk with branch waypoints, and the facts about waypoint count,
  depth, branch placement and the finish line.
- `Walls`: the 200 × 2 wall layout.
- `Vehicles`: the player's speed, yaw and wall-contact rules, and one AI car's step.
- `Race`: the world class.

Inputs that the program gets from outside become parameters:
- Every `Math.random()` value is a parameter: `SegmentDraw` per generation iteration, one real per
  new AI car's speed, and `AIDraw` per car per frame. Each must lie in [0, 1).
- The held keys `w`, `s`, `a` and `d` are a `Keys` value.
- `Math.sin` and `Math.cos` of the updated yaw are parameters of `MovePlayer`.
- Each wall's distance test comes as a `Contact`: `Clear`, or `Hit(push)` carrying the push
  displacement that the vector code computes.

Numbers are exact `real`s.

The model follows the code's exact behaviour, which is worth stating:
- The random ranges are half-open: lateral step [-15, 15), depth step [20, 40), AI speed
  [0.0015, 0.003).
- An AI car's branch, once set, is redrawn with the same 0.5% chance each frame and may land on
  the other side. It never goes back to null.
- The finish line is the z of the last waypoint. Every iteration pushes its main waypoint after
  its branch waypoint, so the last waypoint is always the final main waypoint
  (`Track.LastWaypointIsMain`). No stage's last iteration can branch, because a stage always has
  an even number of iterations. So the finish line is also strictly deeper than every other
  waypoint (`Track.FinishIsDeepest`).

## Model

| member | source | states |
|---|---|---|
| `Basics.Clamp` | game.js:121 | THREE's clamp: the result lies in [lo, hi], equals the value when it is in range, and equals the nearer bound otherwise |
| `Basics.Min` | game.js:146 | `Math.min`: the result is at most both arguments and is one of them |
| `Track.LateralStep` | game.js:42 | one iteration moves x by an amount in [-15, 15) |
| `Track.DepthStep` | game.js:43 | one iteration moves z forward (down) by an amount in [20, 40) |
| `Track.GenerateWaypoints` | game.js:35-53 | the loop with running `x`/`z` accumulators pushes exactly the waypoint list `Waypoints(ds, segments)` |
| `Track.BranchCountBound` | game.js:46 | at most one branch waypoint per four iterations: at most ceil(n/4) branch waypoints in n iterations |
| `Track.WaypointCount` | game.js:38-53 | n iterations give n + (number of branches) waypoints, hence between n and n + ceil(n/4) |
| `Track.DepthDescends` | game.js:43 | after j - i more iterations, the running z is lower by at least 20(j - i) and by less than 40(j - i) |
| `Track.LateralDrift` | game.js:42 | after n iterations the running x lies in [-15n, 15n) |
| `Track.WaypointsPrefix` | game.js:49-52 | generation only appends: the list after m iterations is a prefix of the list after n ≥ m |
| `Track.AboveRunningDepth` | game.js:43-52 | no waypoint pushed so far lies more than 15 beyond the running z |
| `Track.MainWaypointPlacement` | game.js:46-52 | iteration i's main waypoint is at index i + (branches so far). When i branched, i % 4 == 0 and its branch waypoint (x ± 15, z - 15) comes immediately before the main waypoint. Otherwise the previous main waypoint comes immediately before |
| `Track.WaypointOrigin` | game.js:40-53 | every waypoint is some iteration's main waypoint, or that iteration's branch waypoint just before it |
| `Track.LastWaypointIsMain` | game.js:49-52 | after at least one iteration, the last waypoint is the final main waypoint |
| `Track.FinishIsDeepest` | game.js:38-53 | the last waypoint is the final main waypoint, and with an even iteration count (so the last iteration cannot branch) it is strictly deeper than every other waypoint |
| `Track.StageTrack` | game.js:38-75 | a stage's track has between segments and segments + ceil(segments/4) waypoints. The finish z is the final main z. It lies in (-40·segments, -20·segments] and is below every other waypoint |
| `Walls.BuildWalls` | game.js:58-73 | the wall loop produces exactly the layout: wall k is at sample (k div 2)/200, on side -1 for even k and +1 for odd k |
| `Walls.WallLayoutFacts` | game.js:58-73 | a layout has 400 walls, each at a fraction in [0, 1) and on side ±1, in left/right pairs at the same sample, with samples 1/200 apart |
| `Vehicles.ThrottledSpeed` | game.js:119-121 | accelerate, brake, clamp. The result is in [0, 0.6]. With no key held the speed is unchanged, forward alone never slows, brake alone never speeds up, and forward alone saturates exactly when speed + 0.02 ≥ 0.6 |
| `Vehicles.Steered` | game.js:123-124 | yaw is unchanged iff `a` and `d` are both held or both released, rises iff only `a` is held, and falls iff only `d` is held |
| `Vehicles.DampedIsPower` | game.js:130-137 | the wall loop multiplies speed by 0.9 raised to the number of walls in contact |
| `Vehicles.DampedBounds` | game.js:130-137 | contacts never raise the speed or make it negative. They lower it iff the speed is positive and some wall is in contact |
| `Vehicles.ForwardSaturates` | game.js:119-121 | holding only forward for T frames from a speed in range gives min(speed + 0.02·T, 0.6) |
| `Vehicles.SpawnCar` | game.js:84-89 | a new AI car has progress 0, no branch, and speed in [0.0015, 0.003) |
| `Vehicles.SampleFraction` | game.js:146 | the sampled fraction min(progress, 1) is at most 1, not negative for non-negative progress, equals 1 iff progress ≥ 1, and equals progress below 1 |
| `Vehicles.LateralOffset` | game.js:148-149 | the offset is -2, 0 or 2, and it is 0 iff there is no branch |
| `Vehicles.StepCar` | game.js:144-151 | progress grows by exactly the car's own speed (so strictly). The speed is kept. A set branch stays set and in {-1, 1}, and it changes only on a draw below 0.005. The mesh is placed at `SampleFraction(progress)` (≤ 1, = 1 iff finished, = progress below 1), shifted by `LateralOffset(branch)` (±2 for a branch, 0 without) |
| `Race.BackgroundColor` | game.js:27 | the stage background is one of the five palette colours (index `stageIndex % 5`) |
| `Race.RaceWorld.constructor` | game.js:182 | the game starts at stage 0 with a generated stage |
| `Race.RaceWorld.CreateStage` | game.js:25-93 | same stage index and palette colour. Track = `Waypoints` of the draws, `finishZ` = final main z, exactly the 400-wall layout, a fresh pool of 6 cars (`SpawnCar`), player reset, and `Valid()` |
| `Race.RaceWorld.ResetCars` | game.js:110-115 | player at (0,1,0), yaw 0, speed 0. Every AI car keeps everything except progress, which becomes 0. No other field changes (frame) |
| `Race.RaceWorld.MovePlayer` | game.js:118-138 | yaw follows `Steered`. Speed = `Damped(ThrottledSpeed(...))` and stays in [0, 0.6]. Position = heading move then the pushes of the walls in contact |
| `Race.RaceWorld.Drive` | game.js:126-127 | the position moves by -sin·speed in x and -cos·speed in z |
| `Race.RaceWorld.ResolveWalls` | game.js:130-137 | in wall order, each contact adds its push and multiplies speed by 0.9 |
| `Race.RaceWorld.MoveAI` | game.js:141-154 | every car of the pool takes exactly one `StepCar`, and `Valid()` holds after |
| `Race.RaceWorld.SomeCarFinished` | game.js:159 | returns true iff some AI car has progress ≥ 1 |
| `Race.RaceWorld.CheckFinish` | game.js:157-171 | stageIndex rises by exactly 1 iff the player is past `finishZ` and no AI has finished, and then the stage is regenerated; otherwise it is unchanged. A loss or a finished AI resets the cars on the same track. Otherwise nothing changes. Afterwards no AI has finished and the player is not past the line |
| `Race.RaceWorld.Frame` | game.js:183-191 | one frame (player, AI, finish check) keeps `Valid()`, leaves no finished AI, and raises the stage index by at most 1 |

## Left out

- Rendering: scene, lights, meshes, materials, colours of cars and walls, `scene.add`/`remove`,
  camera following, resize handler. None of these affect game state.
- The Catmull-Rom curve and its point and tangent sampling come from the rendering library. Walls
  are kept as (sample fraction, side), and an AI mesh as (sampled fraction, lateral offset), instead
  of world positions.
- The AI heading (`atan2` of the tangent) depends on the curve library.
- Race.RaceWorld.MovePlayer: the sine and cosine are parameters, not tied to the yaw, because
  trigonometry is not modelled. Wall contact and push vectors are inputs for the same reason, so
  the degenerate (NaN) push at distance 0 is not modelled.
- The keyboard listeners and the `keys` dictionary are replaced by the `Keys` parameter.
- The `requestAnimationFrame` scheduling is left out. `Frame` is one iteration of the loop, without
  the camera update and render call.
- The order of the single `Math.random()` stream is not modelled. Each use of a random number gets
  its own parameter. The game treats these draws as independent, so the order does not matter.
- Floating-point rounding is left out: JavaScript numbers are modelled as exact reals.
- The player's x and z rotation are always 0 in the source, so only yaw is kept.
