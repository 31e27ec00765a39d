# graph-runner character controller, modelled in Dafny

This project models the kinematic character controller of the graph-runner
platformer, together with its keyboard polling and the level-mood logic. The
player is a static body whose velocity the controller owns. Each step:

- gravity pulls the vertical velocity towards a terminal velocity, unless the
  player stands on walkable ground;
- the horizontal input accelerates or decelerates the player, along x in the
  air and in the ground plane when grounded;
- a jump adds an impulse and detaches the player;
- a collide-and-slide resolver moves the player's shrunk cylinder along its
  displacement, stopping short of each surface and sliding along it for a
  bounded number of bounces;
- the velocity becomes the distance actually travelled per unit of time;
- a downward probe records the ground hit and snaps a grounded player onto it;
- the marker update attaches the player to walkable ground or detaches it.

Files and modules:

- `wrappers.dfy` (`Wrappers`): `Option`.
- `vectors.dfy` (`Vectors`): 3-vectors and quaternion rotation. The
  square-root and trigonometric operations (`length`, `angle_between`) are
  a `Geometry` value whose only known properties are those in
  `ValidGeometry`: the angle lies in `[0, π]`, and the length is the
  non-negative root of `v · v`, positive exactly for non-zero vectors.
  `normalize_or_zero`, `Dir3::new` and `project_onto` are built on it.
- `math.dfy` (`ControllerMath`): `approach_velocity` and `approach_zero`.
- `controller.dfy` (`Controller`): the controller's data: attachment,
  manoeuvrability profile, hits, collider sizing, and the player entity as a
  class whose fields the systems update.
- `params.dfy` (`ControllerParams`): the tuning record and its defaults.
- `systems.dfy` (`ControllerSystems`): the marker update, gravity, inputs,
  the resolver, the player move, the ground probe, the invariant they keep,
  and one step in schedule order.
- `input.dfy` (`Input`): the movement state and keyboard polling.
- `mood.dfy` (`Mood`): level segments, moods and the colour transition.

The physics engine's shape casts are function-typed parameters (`ShapeCast`,
`ShapeProbe`). `ValidCast` and `ValidProbe` state what the engine promises:
- a hit lies within the requested range;
- a surface normal is a unit vector;
- a probe returns no more hits than requested.

Time steps, key states, player positions and mood events are parameters
of the systems that read them.

Two behaviours of the code are worth knowing when reading the contracts:
- with zero acceleration, `approach_velocity` snaps a value already beyond
  the terminal to the terminal;
- the marker update detaches a grounded player whose ground is slideable but
  not walkable.

## Model

| member | source | states |
|---|---|---|
| ControllerMath.ApproachVelocity | src/controller/math.rs:12-26 | one step of a velocity towards a terminal velocity; see ApproachVelocityBranches and the lemmas after it |
| ControllerMath.ApproachVelocityBranches | src/controller/math.rs:12-26 | the plain step is returned while it has not passed the terminal value; a value already beyond the terminal snaps to it; otherwise the result ends at or beyond the terminal |
| ControllerMath.ApproachVelocityMovesTowardTerminal | src/controller/math.rs:12-26 | with an acceleration of the terminal's sign, the result lies between the current value and the terminal |
| ControllerMath.ApproachVelocityTerminalIsFixedPoint | src/controller/math.rs:12-19 | the terminal value maps to itself when the acceleration has its sign |
| ControllerMath.ApproachVelocitySettlesAfterCrossing | src/controller/math.rs:17-25 | once at or beyond the terminal, the next step returns exactly the terminal |
| ControllerMath.ApproachVelocityWithoutAcceleration | src/controller/math.rs:13-19 | with zero acceleration, a value on the near side is unchanged and a value beyond the terminal snaps to it |
| ControllerMath.ApproachVelocityStepsStayWithinTerminal | src/controller/math.rs:12-26 | repeated steps from between rest and the terminal stay between rest and the terminal |
| ControllerSystems.ApproachVelocityHoldsCap | src/controller/math.rs:12-26 | at the top speed 3 with acceleration 30 and `dt` 0.01, the speed stays at 3 |
| ControllerSystems.ApproachVelocityTurnStep | src/controller/math.rs:12-26 | at −3 with acceleration 30 towards 3 and `dt` 0.01, the next value is −2.7 |
| ControllerMath.DampedAtMostCap | src/controller/math.rs:20-23 | for a positive terminal, the damped crossing step does not exceed the terminal |
| ControllerMath.DampedAtLeastCap | src/controller/math.rs:20-25 | for a negative terminal, the damped crossing step is not below the terminal |
| ControllerMath.ApproachZero | src/controller/math.rs:28-35 | one deceleration step towards rest; see ApproachZeroIsClampedDeceleration and ApproachZeroNeverOvershoots |
| ControllerMath.ApproachZeroIsClampedDeceleration | src/controller/math.rs:28-35 | the result is the linear deceleration by `max_speed / stop_time · dt`, clamped at zero |
| ControllerMath.ApproachZeroNeverOvershoots | src/controller/math.rs:28-35 | the sign is kept, the magnitude does not grow, and a speed within one step of rest becomes zero |
| ControllerMath.ApproachZeroStepsLinear | src/controller/math.rs:28-35 | n steps from a non-negative speed give `max(0, v − n·rate·dt)` |
| ControllerMath.ApproachZeroReachesRest | src/controller/math.rs:28-35 | starting at top speed, the player is at rest once `n·dt` reaches the stop time |
| Controller.FromAvianHit | src/controller/mod.rs:67-74 | the distance is copied, the normal is the rotated flipped `normal2`, and the stored angle is the angle of that normal to up |
| Controller.FromAvianHitUnrotated | src/controller/mod.rs:67-69 | with the identity rotation the stored normal is `−normal2` |
| Vectors.RotatePreservesLength | src/controller/mod.rs:67-68 | rotating by a unit quaternion keeps a vector's squared length, so a rotated unit normal stays a unit normal |
| Controller.DefaultPlayerHits | src/controller/mod.rs:77-81 | a fresh player has no ground hit |
| Controller.Collider | src/controller/mod.rs:98-104 | radius `0.4 − skin`, height `PLAYER_HEIGHT − 2·skin` |
| Controller.ColliderShrinksInsideBody | src/controller/mod.rs:87 | the unshrunk collider is the full body; a skin below the radius gives a positive cylinder inside it |
| Controller.PlayerEntity.constructor | src/controller/mod.rs:83-94 | a spawned player is at rest, airborne and has seen no ground |
| ControllerParams.DefaultParams | src/controller/params.rs:42-76 | the defaults are sane: walking slope below sliding slope below π/2, 3 bounces, positive shrunk collider, gravity (0, −19.62, 0), terminal −20, reverse input factor above input factor |
| ControllerSystems.NextAttachment | src/controller/systems.rs:136-183 | the player is attached exactly when the ground hit is within both slope limits; an existing attachment is kept as it is, and a new one carries the hit's normal |
| ControllerSystems.NextAttachmentWalkable | src/controller/systems.rs:145-180 | every attachment the marker update leaves is walkable when its angle is measured again |
| ControllerSystems.GravityFor | src/controller/systems.rs:195-204 | the cap is the terminal velocity; the gravity is zero exactly on walkable ground, and the configured gravity otherwise |
| ControllerSystems.GravityVelocityY | src/controller/systems.rs:195-211 | the vertical velocity after gravity; see GravityKeepsVerticalSpeedInRange |
| ControllerSystems.GravityKeepsVerticalSpeedInRange | src/controller/systems.rs:185-214 | a vertical speed between the terminal velocity and rest stays there, and is unchanged on walkable ground |
| ControllerSystems.Modes | src/controller/systems.rs:228-244 | jumping is possible exactly when attached; input is planar exactly on walkable ground, with the attachment's normal; the profile is the ground one when attached and the aerial one otherwise |
| ControllerSystems.InputFactors | src/controller/systems.rs:257-266 | the forward factors unless the velocity points against the input by at least `f32::EPSILON` |
| ControllerSystems.SaneStopTimesNonzero | src/controller/systems.rs:247-253 | sane profiles give non-zero stop times to divide by |
| ControllerSystems.HorizontalX | src/controller/systems.rs:246-276 | the x velocity after horizontal input; see HorizontalXReleasedDecays and HorizontalXPushedConverges |
| ControllerSystems.HorizontalXReleasedDecays | src/controller/systems.rs:247-253 | released, the x velocity decays towards zero without changing sign |
| ControllerSystems.HorizontalXPushedConverges | src/controller/systems.rs:254-275 | pushed left or right, the x velocity moves towards that side's top speed and never past it |
| ControllerSystems.PushAccelerationNonnegative | src/controller/systems.rs:257-266 | the input acceleration magnitude is non-negative |
| ControllerSystems.PlanarCoast | src/controller/systems.rs:282-295 | the grounded velocity without input; see PlanarCoastShrinksInPlane and PlanarCoastDiscardsNormalComponent |
| ControllerSystems.PlanarCoastShrinksInPlane | src/controller/systems.rs:282-295 | the coasting velocity is a multiple in `[0, 1]` of the in-plane velocity, with the decelerated in-plane speed |
| ControllerSystems.PlanarCoastDiscardsNormalComponent | src/controller/systems.rs:284-294 | for a unit normal, the coasting velocity has no component along the ground normal |
| ControllerSystems.PlanarPushAsWritten | src/controller/systems.rs:296-322 | the grounded velocity under input, with the unsigned projection `|v·d|` of the code; see PlanarPushAsWrittenAlongX and PlanarPushAsWrittenCannotTurnAround |
| ControllerSystems.PlanarPushAsWrittenAlongX | src/controller/systems.rs:296-322 | for any velocity and a rightward push, the code as written keeps y and z, drives `|vx|` towards the top speed and keeps `vx − |vx|` beside it |
| ControllerSystems.PlanarPushAsWrittenPushesAway | src/controller/systems.rs:311-321 | at −3.5 against a rightward push on flat ground, with the default profiles, the code as written gives −4 |
| ControllerSystems.PlanarPushAsWrittenCannotTurnAround | src/controller/systems.rs:311-321 | at −3 against a rightward push on flat ground, with the default profiles and `dt` 0.01, the code as written gives −3 again: the player never turns around |
| ControllerSystems.PlanarPush | src/controller/systems.rs:296-322 | the grounded velocity under input with the signed projection; see PlanarPushAlongX, PlanarPushesAgree and PlanarPushTurnsAround |
| ControllerSystems.PlanarPushAlongX | src/controller/systems.rs:296-322 | for any velocity and a rightward push, the corrected push keeps y and z and integrates the x velocity as horizontal input does |
| ControllerSystems.PlanarPushSlowsReverseMotion | src/controller/systems.rs:311-321 | on the same input the corrected push gives −3.2 |
| ControllerSystems.PlanarPushTurnsAround | src/controller/systems.rs:311-321 | on the same input at −3 the corrected push gives −2.7, towards the input |
| ControllerSystems.DefaultReversePush | src/controller/params.rs:45-58 | against the input, the default base and ground profiles accelerate at 30 towards top speed 3 |
| ControllerSystems.InputsVelocity | src/controller/systems.rs:216-337 | the velocity after the input system, as written, has no depth component |
| ControllerSystems.CorrectedInputsVelocity | src/controller/systems.rs:216-337 | the input system with the corrected planar push also leaves no depth component |
| ControllerSystems.PlanarPushesAgree | src/controller/systems.rs:296-322 | for a unit push and a velocity not pointing against it, the push as written equals the corrected push |
| ControllerSystems.CorrectionOnlyAffectsReversePlanarPush | src/controller/systems.rs:228-337 | with the axis at −1, 0 or 1, the corrected and as-written input systems agree except on walkable ground when pushed against the x velocity |
| ControllerSystems.JumpedAndPinned | src/controller/systems.rs:326-335 | the jump impulse and the zeroed depth; see InputsJumpImpulse and InputsVelocity |
| ControllerSystems.InputsJumpImpulse | src/controller/systems.rs:326-334 | a jump adds exactly the base jump factor to the vertical velocity; without a jump the velocity is the one the same input without jump gives |
| ControllerSystems.AirborneInputsKeepVerticalSpeed | src/controller/systems.rs:240-277 | in the air only x is steered, the vertical velocity is unchanged and there is no jump |
| ControllerSystems.FlatGroundPushIsHorizontal | src/controller/systems.rs:296-322 | grounded and pushed right, the corrected input system agrees with horizontal integration of the ground profile, whatever the sign of the x velocity |
| ControllerSystems.SlideDisplacement | src/controller/systems.rs:431-433 | the slide displacement is orthogonal to the surface normal and differs from the leftover by a multiple of it |
| ControllerSystems.CastStep | src/controller/systems.rs:400-434 | one cast of the resolver and its slide; see CastStepOutcome and SlideDisplacement |
| ControllerSystems.CastStepOutcome | src/controller/systems.rs:400-434 | no direction exactly for a zero displacement; on a hit the travel lies between `−skin` and the displacement's length along its direction, and the slide is orthogonal to the unit hit normal |
| ControllerSystems.CastStepFollowsCast | src/controller/systems.rs:400-434 | for a non-zero displacement, the cast is blocked exactly when the engine's cast over the length plus the skin hits, having travelled `distance − skin` against the hit's `normal2` |
| ControllerSystems.MoveAndCollideAndSlide | src/controller/systems.rs:388-457 | the resolver never proposes an attachment or a velocity |
| ControllerSystems.CastsBounded | src/controller/systems.rs:436-453 | the resolver casts at most `max(1, max_collision_bounces − bounce_no)` times |
| ControllerSystems.FreeFlight | src/controller/systems.rs:400-425 | a zero or unobstructed displacement is taken in full |
| ControllerSystems.MiddleBounceSlides | src/controller/systems.rs:426-447 | a hit before the last bounce moves the player `(distance − skin)` along the direction and resolves from there, as the next bounce, the leftover with its component along `normal2` removed |
| ControllerSystems.BlockedBounce | src/controller/systems.rs:436-447 | a blocked cast before the last bounce hands its collision position and slide to the next bounce |
| ControllerSystems.LastBounceStops | src/controller/systems.rs:426-453 | on the last bounce allowed, a hit stops the player `skin` short of the reported distance |
| ControllerSystems.FirstGripping | src/controller/systems.rs:116-119 | the first hit in cast order with `normal1 · velocity < escape_incidence`, and none exactly when no hit qualifies |
| ControllerSystems.ProbeGround | src/controller/systems.rs:96-120 | the downward probe's first gripping hit; see ProbeGroundInRange and FirstGripping |
| ControllerSystems.ProbeGroundInRange | src/controller/systems.rs:97-120 | a recorded ground hit lies within the probe range and carries its own normal's angle; under a unit rotation its normal is a unit vector |
| ControllerSystems.ApplyGravity | src/controller/systems.rs:185-214 | only the vertical velocity changes, to the gravity step |
| ControllerSystems.ApplyInputs | src/controller/systems.rs:216-337 | the velocity becomes the input velocity as written; the attachment is removed exactly on a jump |
| ControllerSystems.MovePlayer | src/controller/systems.rs:340-386 | the player moves to where the resolver ends and the velocity becomes the travel per unit of time |
| ControllerSystems.FreeMoveKeepsVelocity | src/controller/systems.rs:376-425 | from any position, a zero or unobstructed move gives back, as travel per unit of time, the velocity it started with |
| ControllerSystems.QuerySurroundingHits | src/controller/systems.rs:74-133 | the first gripping hit is recorded; only a grounded player with a hit is lowered, by `distance − skin`, at most `0.4 − skin`; x and z never change |
| ControllerSystems.Snapped | src/controller/systems.rs:122-130 | a grounded player with a ground hit is lowered by `distance − skin`; otherwise the translation is unchanged; x and z never change |
| ControllerSystems.UpdateMarkers | src/controller/systems.rs:136-183 | the attachment becomes what the marker decision gives |
| ControllerSystems.GroundedIsWalkable | src/controller/systems.rs:195-244 | under the invariant a grounded player feels no gravity and steers in the ground plane |
| ControllerSystems.Spawn | src/controller/mod.rs:83-94 | a player spawned with any unit rotation is at rest at its translation and satisfies the invariant; the rotation is locked, so no system changes it |
| ControllerSystems.IntegrateVelocity | src/controller/systems.rs:18-26 | the velocity becomes the input system's velocity applied to the gravity step; the attachment is removed exactly on a jump |
| ControllerSystems.MoveAndProbe | src/controller/systems.rs:27-36 | the velocity is the travel per unit of time of the resolver's move; the ground hit is the probe from its end point, which is then snapped; a ground hit is consistent and, under a unit rotation, has a unit normal |
| ControllerSystems.Step | src/controller/systems.rs:15-44 | the new velocity is the travel per unit of time of the move of the gravity-and-input velocity; the ground hit is the probe from the end of the move; the translation is that end snapped to the ground; the attachment is the marker decision on what the inputs left, present exactly when the ground hit is within both slope limits; the invariant (unit rotation, walkable attachment, consistent unit-normal ground hit) is kept |
| Input.AxisFor | src/input.rs:45-53 | the axis is −1, 0 or 1: −1 for left only, 1 for right only, 0 when both or neither are held |
| Input.Polled | src/input.rs:38-58 | after a poll, the axis follows the keys, `pressing_jump` is the jump key's state, and `just_pressed_jump` is pressed now and not before |
| Input.PollRun | src/input.rs:28-59 | a run of polls gives one state per poll, each the poll of its keys from the state before it |
| Input.HeldJumpFiresOnce | src/input.rs:38-58 | holding jump across polls fires on the first poll only, and only if it was not held before |
| Input.MovementState.constructor | src/input.rs:4-9 | a fresh state is released |
| Input.MovementState.Reset | src/input.rs:12-16 | reset clears the axis and both flags |
| Input.MovementState.PollInputs | src/input.rs:28-59 | Escape asks to exit and leaves the state untouched; otherwise the state becomes the polled one |
| Mood.BackgroundColor | src/mood.rs:21-30 | every mood has a plain colour; Alice blue exactly for the four catch-all moods |
| Mood.BackgroundColorsDistinct | src/mood.rs:21-30 | two moods share a colour only when it is Alice blue |
| Mood.StartingX | src/mood.rs:44-52 | each segment's threshold; see StartingXIncreasing |
| Mood.StartingXIncreasing | src/mood.rs:44-52 | the segment thresholds rise in segment order |
| Mood.LastStartingBelow | src/mood.rs:62-67 | the search finds a segment starting below `x` after which every segment starts at `x` or above, and none exactly when every threshold is at least `x` |
| Mood.SegmentFor | src/mood.rs:54-69 | the segment for a position; see SegmentForIsLastStarted, SegmentForFallback and SegmentForMonotone |
| Mood.SegmentForIsLastStarted | src/mood.rs:54-67 | for `x > −1000` the segment is the last one whose threshold is below `x` |
| Mood.SegmentForFallback | src/mood.rs:68 | for `x ≤ −1000` the lookup falls back to the final relief segment |
| Mood.SegmentForMonotone | src/mood.rs:54-67 | above −1000, a larger `x` never yields an earlier segment |
| Mood.SegmentMood | src/mood.rs:71-79 | each segment's mood; see SegmentMoodInjective |
| Mood.SegmentMoodInjective | src/mood.rs:71-79 | different segments have different moods |
| Mood.ForX | src/mood.rs:54-69 | the loop returns the segment the lookup specifies |
| Mood.ColorOf | src/mood.rs:94-103 | without a transition the colour is the mood's own; during one it mixes the old colour into the mood's by the progress fraction |
| Mood.MixFactorInRange | src/mood.rs:94-103 | while progress stays within the transition's duration, the colour shown mixes by a factor in `[0, 1]` |
| Mood.AfterEvent | src/mood.rs:125-131 | one mood event starts a transition from the current colour; see AfterEventsLastWins |
| Mood.AfterEvents | src/mood.rs:125-131 | the events in order; see AfterEventsLastWins |
| Mood.AfterEventsLastWins | src/mood.rs:125-131 | after a non-empty run of events the last mood wins, progress is zero and a transition is under way |
| Mood.AfterPosition | src/mood.rs:137-144 | nothing changes while the segment stays the same; on a change the segment's mood is taken with progress zero |
| Mood.Transitioned | src/mood.rs:148-162 | without a transition nothing changes; otherwise progress grows by `dt`, is capped at 2 and the transition ends there |
| Mood.TransitionCompletes | src/mood.rs:153-160 | enough steps end the transition on the mood's own colour |
| Mood.TransitionStaysDone | src/mood.rs:153-155 | a finished transition stays finished |
| Mood.MoodParams.constructor | src/mood.rs:85-91 | the default state is peace, no transition, progress zero, the freedom segment |
| Mood.MoodParams.ProcessMoodEvents | src/mood.rs:125-131 | the state becomes the one the events give |
| Mood.MoodParams.ProcessPlayerPosition | src/mood.rs:133-146 | runs only for a single player, and then applies that player's position |
| Mood.MoodParams.TransitionMoods | src/mood.rs:148-162 | the state advances by one transition step, and the clear colour is set exactly while a transition was under way |

## Findings

| source | as written | input that shows it | evidently intended | confidence | as-written member | corrected member |
|---|---|---|---|---|---|---|
| src/controller/systems.rs:311-321 | planar input splits the velocity into the unsigned projection `|v·d|` along the input and the rest, then drives that unsigned speed towards the top speed | velocity (−3, 0, 0), input 1, flat walkable ground, default profiles, `dt` 0.01: the new velocity is (−3, 0, 0) again, so a player running left at top speed never turns around (from −3.5 it even speeds up to −4) | the signed projection is driven towards the top speed, giving (−2.7, 0, 0) | medium; not executed | ControllerSystems.PlanarPushAsWrittenCannotTurnAround | ControllerSystems.PlanarPushTurnsAround |

The input system in the model (`InputsVelocity`, `ApplyInputs`, and so
`Step`) follows the code as written, through `PlanarPushAsWritten`.
`CorrectedInputsVelocity` is the same system with the corrected `PlanarPush`.
`CorrectionOnlyAffectsReversePlanarPush` shows that the two differ only for a
player on walkable ground pushed against its x velocity.

## Left out

- Floating point: every quantity is a real. NaN, infinities, `−0.0` and f32 rounding are not modelled.
- ControllerMath.ApproachVelocity: with terminal zero the code divides by zero and clamps an infinity back to zero. The model returns the terminal directly there.
- ControllerMath.ApproachZero: requires a non-zero stop time, since the code divides by it (an IEEE infinity otherwise).
- ControllerSystems.MovePlayer: requires a non-zero time step. At zero the code computes `0/0`; the fixed 96 Hz schedule never runs a zero step.
- The Bevy schedules, the fixed-timestep wiring and the run conditions (`src/controller/systems.rs:15-44`). `Step` composes the systems in their order instead. The mood systems are separate methods and are not composed.
- Command deferral: an attachment insert or removal lands when the issuing system returns. Within one system nothing reads the attachment after the command, so the model assigns it at the end of the method.
- The `Attachment` insert and remove hooks, and every `println!`, are logging only.
- The single-entity guards (`query.single_mut()` failing): the systems run on one given player. For mood, `ProcessPlayerPosition` models the zero-or-many-players case as no change.
- The resolver's `speed` and `is_grounded` parameters and the `config`/`filter` values: the code does not read the first two, and the last two are part of the shape-cast oracle.
- `WALL_RETENTION_PROXIMITY` and the buoyant terminal velocity are declared but no core system reads them.
- The shape casts themselves, and the trigonometric and square-root operations: they are oracles with the promises stated above.
- Colour values and `Color::mix`: colours are symbolic, and `Mix` records its arguments.
