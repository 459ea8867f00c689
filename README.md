# Underwater scene: collision and locomotion model

`main.js` drives a first-person underwater scene. The player swims above a
seabed that is scattered with props. One whale moves around them. This
project models the part of that scene with rules that can be stated
exactly, and proves properties of it:

- **The obstacle registry.** Each prop becomes an upright cylinder record
  `{x, y, z, r, h}`. `hitObstacle` is the read-only scan that asks whether
  the camera at a point would touch one of them.
- **Prop scattering.** `randm`, the per-kind scale table, and the placement
  drawn for each prop. The values `Math.random()` returned are inputs.
- **Keyboard and clock.** `setKey` maps key codes onto six held-key flags.
  The frame step is `dt = min(0.033, elapsed / 1000)`.
- **The player step of `animate`.** It builds the wish vector from the held
  keys and the camera's horizontal frame, then normalises and scales it to
  `SPEED * dt`. The move is then resolved against the registry, with
  wall-sliding. Last come the vertical keys, the altitude clamp and the
  pull-back onto the world circle.
- **The whale step of `animate`.** The whale is a straight-line bouncer
  inside the box `[-WORLD_RADIUS, WORLD_RADIUS]^2`, below a ceiling `yMax`
  and above a floor `max(yMin, bottomOffset + margin)`. Only the signs of
  its velocity components ever change.

## Layout

- `world.dfy`: `World` holds vectors, boxes, the configuration constants,
  the abstract square root, and a few arithmetic facts.
- `obstacles.dfy`: `Obstacles` holds the obstacle record, the collision
  predicate, and the record built for a prop. It has the record as written
  and the corrected one (see Findings).
- `props.dfy`: `Props` holds `randm`, the scale table and the placement.
- `input.dfy`: `Input` holds the key flags, `setKey` as a function, and the
  `dt` clamp.
- `player.dfy`: `Player` holds the pure pieces of the player step and their
  properties.
- `whale.dfy`: `Whale` holds the pure whale step and what holds over any
  number of frames.
- `scene.dfy`: `Scene` holds the class `Underwater`. Its fields are the
  module's mutable state: `obstacles`, the camera position, `keys`,
  `whaleState`, `whaleBottomOffset` and `lastTime`. Its methods update those
  fields in the code's own order. Each method is proved equal to the pure
  definitions above.

The square root is a parameter `sqrt` that behaves as the square root on
non-negative reals (`World.IsSqrt`). The camera's forward and right vectors
are also parameters. `Player.QuarterTurn` states the relation between them
that the code sets up: forward is horizontal and right is forward × up.
`Player.HorizontalFrame` adds what `normalize` gives: forward is a unit
vector, or the zero vector when the camera looks straight up or down. A
prop's measured bounding box is a parameter too, given as a function of its
placement.

The whale has no steering, waypoints or smoothing: each frame moves it in a
straight line by its velocity, and it bounces off the walls at
`±WORLD_RADIUS` (250), off the ceiling `yMax` and off its floor. The
wall-slide of the player needs an obstacle that blocks the diagonal move
itself; `Player.WallSlide` uses one, since with `PLAYER_R = 1.5` an
obstacle at `(5,0,0)` of radius 2 does not block a unit diagonal step from
the origin.

## Model

| member | source | states |
|---|---|---|
| Obstacles.FootprintAsWritten | main.js:264-285 | The record the code pushes is centred in x and z on the middle of the measured box. Its radius at least 0.4·size.x and at least 0.4·size.z, and equal to one of them. Its height is size.y. Its vertical band is exactly the box's `[min.y, max.y]` as measured before the prop is lifted. |
| Obstacles.Footprint | main.js:272-285 | The corrected record has the same x, z, radius and height. Its vertical band holds y exactly when the lifted prop spans y, that is when 0 ≤ y ≤ size.y. |
| Obstacles.FootprintAsWrittenMissesProp | main.js:264-272 | Take a centred box 4 tall. A camera at altitude 3 on the prop's axis is inside the lifted prop. The code's record does not stop it; the corrected record does. |
| Obstacles.FootprintAgreesOnGroundedModels | main.js:264-272 | When the box already starts at y = 0, the two records are equal. |
| Obstacles.BlockedAppend | main.js:280-285 | Pushing one record blocks exactly the points that were blocked before, plus the points that record collides with. |
| Obstacles.BlockedPersists | main.js:210-236 | The registry only grows, so a point that is blocked stays blocked after any append. |
| Scene.Underwater.HitObstacle | main.js:218-236 | The scan returns true exactly when some obstacle has y in `[o.y − h/2, o.y + h/2]` and squared planar distance below `(PLAYER_R + o.r)^2`. It is false for an empty registry and changes nothing. |
| Scene.Footprints | main.js:241-285 | The records for a run of draws: one record per prop, so the count of draws divided by six. The records are the corrected footprints (see Left out). |
| Scene.FootprintsAt | main.js:241-285 | Record i of the run is the corrected footprint of the prop placed from draws 6i to 6i+5. |
| Scene.Underwater.SpawnProps | main.js:239-296 | A load callback for `count` props appends exactly `count` records to the registry. They are the corrected footprints of the props placed from consecutive groups of six draws, in order, and earlier records are kept. |
| Scene.Underwater.SpawnProp | main.js:241-285 | One pass of the loop pushes exactly one record: the corrected footprint of the box measured at the placement drawn from that prop's six values, `Scene.PropRecord`. Earlier records are kept. |
| Props.Randm | main.js:199-201 | `min + u·(max − min)` lies in `[min, max]` when min ≤ max, and strictly below max when min < max. It lies in `[max, min]` when the bounds are reversed, and equals min when u = 0. |
| Props.RandmInverse | main.js:199-201 | For min < max, u is recovered as `(randm − min)/(max − min)`, so distinct draws give distinct values. |
| Props.RandmMonotone | main.js:199-201 | For min < max, a larger draw gives a strictly larger value. |
| Props.ScaleRange | main.js:247-252 | The scale interval of every kind is positive and ordered. It is a single value exactly for kelp and the fallback kind, and never above 100. |
| Props.Place | main.js:254-258 | The kept position lies in `[-200, 200)` on both axes. The scale lies in the kind's interval. The heading lies in `[0, Math.PI * 2)`. |
| Props.FirstPositionDiscarded | main.js:254-257 | The first two draws, for the position that is overwritten, have no effect on the placement. |
| Input.KeyOf | main.js:308-316 | `ShiftLeft` and `ShiftRight`, and only those codes, drive the shift flag. Exactly `KeyW`, `KeyA`, `KeyS`, `KeyD` and `Space` drive w, a, s, d and space. |
| Input.Press | main.js:308-316 | After an event, the flag the code maps to is `down` and every other flag keeps its value. |
| Input.PressUnknown | main.js:308-316 | A code that maps to no flag changes nothing. |
| Input.PressRelease | main.js:308-316 | A pressed key reads held through events on other keys, and reads up after its own release. |
| Scene.Underwater.SetKey | main.js:308-316 | The sequence of `if`s on the flags gives exactly `Input.Press`. |
| Input.FrameDt | main.js:341-343 | `dt` is at most 0.033 and at most the elapsed seconds. It equals one of the two, and it is non-negative when the clock has not gone back. |
| Player.Axis | main.js:386-389 | An opposite key pair contributes +1 when only the first key is held, −1 when only the second is held, and 0 exactly when both keys or neither are held. Its square is 1 or 0 accordingly. |
| Player.WishSinglePair | main.js:384-389 | The wish is zero when both pairs cancel. It is exactly forward when only W is uncancelled, and exactly right when only D is uncancelled. |
| Player.WishBySteps | main.js:385-389 | Adding or subtracting forward and right in the order W, S, D, A equals the closed form `a·forward + b·right`. |
| Player.Uncancelled | main.js:385-388 | The number of uncancelled opposite key pairs is 0 exactly when W and S agree and D and A agree. |
| Player.WishLengthSq | main.js:380-389 | With right equal to forward × up for a horizontal forward, the wish's squared length is the number of uncancelled key pairs times forward's squared length. |
| Player.WishNonZero | main.js:379-390 | For the camera's normalised horizontal frame, the wish is non-zero exactly when the camera has a heading and some opposite key pair is uncancelled. |
| Player.Displacement | main.js:390 | A zero wish gives no step. A horizontal wish gives a horizontal step. |
| Player.DisplacementSize | main.js:390 | A non-zero wish becomes a step of length exactly SPEED·dt. A unit wish is scaled by SPEED·dt and not otherwise changed. |
| Player.DisplacementDirection | main.js:390 | A non-zero wish becomes a step parallel to it. For dt > 0 the step points the same way as the wish: their dot product is positive. |
| Player.MoveLength | main.js:379-390 | For the camera's normalised horizontal frame, the step is horizontal. Its length is SPEED·dt when moving, diagonals included, and it is zero otherwise. |
| Player.MoveAlong | main.js:379-390 | For a camera with a heading, W alone moves SPEED·dt along forward, and D alone moves SPEED·dt along right. |
| Scene.KeyDirection | main.js:385-389 | The imperative key loop computes `Player.Wish`. |
| Scene.Heading | main.js:385-390 | The imperative wish and normalisation compute `Player.Displacement` of the wish. |
| Player.Resolve | main.js:393-408 | y is unchanged, and each of x and z ends at its old or its candidate value. A free diagonal commits both axes. Otherwise x takes nx exactly when `(nx, oy, oz)` is free, and z takes nz exactly when `(ox, oy, nz)` is free. |
| Player.ResolveEndsFree | main.js:393-408 | From a free spot, the resolved spot is free unless the move cuts a corner: the diagonal is blocked while both single-axis moves are free. |
| Player.WallSlide | main.js:400-408 | An obstacle blocking only the X part of a diagonal move stops X and lets Z through. |
| Player.CornerCutEntersObstacle | main.js:400-408 | A concrete diagonal past an obstacle's corner commits both axes and ends inside the obstacle. |
| Player.Climb | main.js:411-414 | The altitude ends in `[MIN_Y, MAX_Y]`. It is y plus the signed vertical travel when that stays in range, and otherwise the bound that was crossed. |
| Player.ClimbCancels | main.js:411-414 | Holding both vertical keys, or neither, leaves only the clamp. |
| Player.PullBack | main.js:419-421 | The pull-back factor lies in (0, 1), and the scaled distance lies in `(WORLD_RADIUS − 1e-6, WORLD_RADIUS)`. |
| Player.Reproject | main.js:416-424 | y is unchanged. A position within the circle is unchanged. One outside has x and z scaled by the same factor, which keeps its direction, and ends strictly inside the circle, within 1e-6 of it. |
| Player.Confine | main.js:416-424 | With the distance measured by `sqrt`, y is unchanged, the result is within the circle, and a position already within it is unchanged. |
| Scene.PullInside | main.js:416-424 | The imperative boundary step computes `Player.Confine`. |
| Player.Step | main.js:378-427 | After a locked frame, the altitude lies in `[MIN_Y, MAX_Y]` and the planar distance is at most WORLD_RADIUS. |
| Scene.Underwater.PlayerFrame | main.js:378-427 | A locked frame moves the camera to `Player.Step` of its old position. An unlocked frame leaves it where it was. |
| Whale.Launch | main.js:189-190 | On load, the position becomes (0, 16, 0) and the velocity (1, 2, 0). Speed, yMin, yMax and margin are unchanged. |
| Whale.Floor | main.js:363-364 | The floor is at least yMin and at least bottomOffset + margin, and it equals one of the two. |
| Whale.Moved | main.js:350-352 | With dt = 0 the whale does not move. With speed 0 it keeps its x and z. |
| Whale.Bounce | main.js:355-358 | A coordinate ends in `[-WORLD_RADIUS, WORLD_RADIUS]`. Inside the box nothing changes. Past a wall, the coordinate is set to that wall and the velocity component flips. |
| Whale.Step | main.js:350-365 | x and z end in the box, and y ends at or above the floor. y is at or below yMax whenever the floor allows it, and exactly the floor otherwise. Each \|vel\| component is kept. x and z with their velocity components are exactly `Bounce` of the moved coordinate. Above the ceiling, the whale is set on the ceiling with vel.y negated, unless the floor is higher, in which case the floor wins. Below the floor, the whale is set on it with vel.y = \|vel.y\|. Between floor and ceiling, y and vel.y are unchanged. Speed, yMin, yMax and margin are unchanged. |
| Whale.BounceTurnsInward | main.js:350-358 | For a whale inside the box with positive speed and dt, crossing a wall leaves it heading away from that wall. |
| Whale.Run | main.js:348-365 | Over any number of frames, each \|vel\| component and the parameters are unchanged. |
| Whale.RunAppend | main.js:348-365 | Running two sequences of frames one after the other is running their concatenation. |
| Whale.RunInBounds | main.js:348-365 | After at least one frame, from any state, the whale is in the box and between its floor and ceiling, and it stays there. |
| Whale.LaunchInBounds | main.js:189-190 | The launch position is already within bounds exactly when the model hangs at most 15.2 below its pivot. |
| Scene.Underwater.WhaleFrame | main.js:348-365 | Once loaded, a frame moves the whale to `Whale.Step` of its old state. Before loading, position and velocity do not change. |
| Scene.Underwater.WhaleLoaded | main.js:175-190 | Loading sets the flag, sets `whaleBottomOffset = -box.min.y`, and sets the state to `Whale.Launch` of the old state. |
| Scene.Underwater.constructor | main.js:13-336 | The initial state set up by main.js:14, 149-162, 210, 306 and 336: an empty registry, the camera at (0, 20, 0), no keys held, the unloaded whale record with bottom offset 0, and `lastTime` at the given clock reading. |
| Scene.Underwater.Frame | main.js:338-427 | `lastTime` becomes the current clock reading. The whale and the camera take their steps with the clamped dt. A locked camera ends within `[MIN_Y, MAX_Y]` and the world circle, and a loaded whale ends within its bounds. |

## Left out

- Rendering is not modelled: the scene, lights, fog, the renderer and the day/night tables (main.js:9-126). They are presentation settings with no rules to state.
- Asset loading is not modelled: GLTF and texture loading, the animation mixer, `console` output and error callbacks. This is asynchronous I/O through the scene library. Only the outcome of the whale load is modelled, as `WhaleLoaded`. Only the outcome of each prop load is modelled, as `SpawnProps`, with the box of each prop as an input.
- Library geometry is not modelled: `Box3.setFromObject`, `getWorldDirection`, `crossVectors`, `normalize` of the forward vector, and `lookAt`. The box, and the forward and right vectors, are inputs. `getSize` and `getCenter` are modelled by `World.Size` and `World.Center` for a non-empty box. An empty `Box3` gives the zero vector, which the model does not represent. `Player.QuarterTurn` and `Player.HorizontalFrame` state how the two vectors relate.
- The prop's heading (main.js:258) is kept in its `Placement`, so the measured box, an input given as a function of the placement, may depend on it. `Math.PI * 2` is the constant `Props.TWO_PI`, the double the code computes, not 2π itself.
- Particles (main.js:25-45, 430), the DOM overlay and its listeners, `preventDefault` in `setKey`, window resize and `requestAnimationFrame` are not modelled. They are visuals and UI plumbing.
- `addObstacle` (main.js:214-216) is not modelled. Nothing calls it, and it omits the `h` that `hitObstacle` reads.
- IEEE-754 rounding is not modelled: arithmetic is over the reals, and `Math.sqrt` is any function satisfying `World.IsSqrt`.
- Scene.Underwater.WhaleFrame and Scene.Underwater.PlayerFrame: each reads the fields into locals, updates those locals in the code's order, and writes them back once at the end. In JavaScript the fields are updated in place. Nothing observes them in between, so the resulting state is the same.
- Scene.Footprints: its records are the corrected record `Obstacles.Footprint`, not the record `main.js:280-285` pushes, which is `Obstacles.FootprintAsWritten` (see Findings). The two agree whenever the measured box starts at y = 0, as `Obstacles.FootprintAgreesOnGroundedModels` states.
- Scene.Underwater.SpawnProps: the registry it appends to stores those corrected records, so the scene's collisions follow the corrected program, not the one as written.
- Scene.Underwater.SpawnProp: the record it pushes for one prop is the corrected `Obstacles.Footprint`, not `Obstacles.FootprintAsWritten`.
- Scene.PropRecord and Scene.FootprintsAt: the record they give for prop number i is the corrected `Obstacles.Footprint`, not `Obstacles.FootprintAsWritten`.
- Player.Step: its own contract states only the altitude and distance bounds. Its other properties are separate lemmas about its parts: Resolve, Climb, Confine and MoveLength.

## Findings

| source | as written | input that shows it | evidently intended | confidence | as-written member | corrected member |
|---|---|---|---|---|---|---|
| main.js:264-285 | The obstacle's centre is taken from the bounding box measured before line 272 lifts the prop by `-box.min.y`, although the comment at line 279 calls that box final. The record's vertical band is therefore `[min.y, max.y]`, not the lifted prop's `[0, size.y]`. | Box from (-1,-2,-1) to (1,2,1), so the model is centred on its pivot. A camera at (0, 3, 0) is inside the lifted prop, but the record covers only altitudes −2 to 2, so it passes through. | A record with centre y raised by the same lift, so that it covers `[0, size.y]`. | medium, not executed | Obstacles.FootprintAsWritten, Obstacles.FootprintAsWrittenMissesProp | Obstacles.Footprint |
