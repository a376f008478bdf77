# flocking-boids in Dafny

A model of the simulation core of flocking-boids, a three.js flocking demo, and proofs about it.

Boids fly around a flocking centre at (0, 10, 0). Each tick, every boid:
- finds the other boids closer than 1 (its friends);
- switches between flocking and returning with hysteresis: it turns back beyond 50 and flocks again inside 45;
- adds up its steering forces. While flocking these are cohesion, separation and velocity matching. While returning they are separation and a seek towards the centre;
- integrates the total with a clamped step.

The world holds the boids in an array and the controllers in a name table. A tick updates every controller, then every boid.

Around this core the model covers:
- the earlier dictionary-keyed world of `src/game.js`, with its closest-friend search;
- the seek/flee vehicle of `src/steering.js`;
- the four-state camera zoom machine;
- the display switches of `Config` and `Context`;
- the key table and key-down dispatch of `src/index.js`;
- saving the switches to local storage and reading them back.

## Structure

| file | module | what it holds |
|---|---|---|
| `wrappers.dfy` | `Wrappers` | `Option`: `undefined`/`null` or a value |
| `reals.dfy` | `Reals` | numbers as exact reals, `Math.min`/`max`, the square-root law `IsSqrt` |
| `vectors.dfy` | `Vectors` | the `Vector3` operations used, as functions over real triples |
| `decimal.dfy` | `Decimal` | the decimal string a number becomes when used as an object key |
| `motion.dfy` | `Motion` | the clamped integration step shared by boid and vehicle |
| `steering.dfy` | `Steering` | `seek` and `flee` |
| `boid_rules.dfy` | `BoidRules` | the boid's constants, state machine, three forces and one update, on values |
| `world_rules.dfy` | `WorldRules` | one tick of the boid array on values: turns in array order, each boid seeing the states the earlier turns left |
| `flock.dfy` | `Flock` | the `Boid` and `World` classes, carrying out those rules on their fields |
| `vehicle.dfy` | `Vehicles` | the seek/flee vehicle and its strategy table |
| `legacy_game.dfy` | `LegacyGame` | the earlier world keyed by name, with the closest-friend search |
| `camera.dfy` | `Camera` | the zoom machine of `CameraController` |
| `settings.dfy` | `Settings` | `Config` and `Context` with their toggles |
| `persistence.dfy` | `Persistence` | storing the config as strings and reading it back |
| `keys.dfy` | `Keys` | the key table and the key-down listener |

## Design

**Shape of the model.**
- Objects whose methods change their fields are classes. These are `Boid`, `World`, `Vehicle`, `LegacyBoid`, `LegacyWorld`, `CameraController`, `Config`, `Context` and `LocalStorage`.
- Methods state their effect through functions on values. For example, the boid loop of `World.update` is proved against `WorldRules.Tick`, and the loop of the earlier world's `update` against `ClosestIndex` over `TurnPositions`. Loop invariants tie the state after `i` iterations to that function after `i` turns or on a prefix.

**Numbers and square roots.**
- JavaScript numbers are exact reals.
- `Math.sqrt` cannot be defined in Dafny, so every operation that needs a length takes a `sqrt` parameter.
- Lemmas about lengths assume `IsSqrt(sqrt)`: the root is non-negative and squares back to its argument.
- `normalize`, `clampLength`, `setLength` and `distanceTo` are written out as three.js defines them. In particular, a zero vector is divided by 1 and stays zero.

**Getters with no contract of their own.**
- `Boid.getVelocity` is `Flock.Boid.GetVelocity`, on top of `Motion.Velocity`.
- `Boid.selectState` is `Flock.Boid.SelectState`, on top of `BoidRules.SelectState`.
- Their properties are stated on the functions they call.

**Calls and exceptions.**
- Calls into code outside the model return a trace instead. The controllers' `update` calls become the `ControllerCall` list that `Flock.World.Update` returns. That list holds controllers only: the boids' updates are stated on their states and friends. The callback of `forEachBoid` becomes the visited list of `LegacyGame.LegacyWorld.ForEachBoid`.
- A JavaScript `TypeError` becomes an `ok` result that is false:
  - `strategies[strategy]` is missing for a strategy name that is not `seek` or `flee` (names inherited from `Object.prototype` aside, see Left out);
  - `setMovementFactor` is called before `setPointerLockControls`.

## Model

| member | source | states |
|---|---|---|
| BoidRules.SelectState | src/game/boid.js:111-122 | a flocking boid turns to returning exactly when farther than 50 from the centre; a returning boid flocks again exactly when closer than 45 |
| BoidRules.SelectStateBand | src/game/boid.js:113-121 | between 45 and 50 from the centre neither state changes (hysteresis) |
| BoidRules.SelectStateStable | src/game/boid.js:111-122 | selecting again from the same position keeps the selected state |
| BoidRules.LocalAverageOfCopies | src/game/boid.js:54-61 | when all friends stand at the same point, their average point is that point |
| BoidRules.LocalAverageTranslated | src/game/boid.js:54-61 | moving every friend by the same vector moves their average point by that vector; without friends the result stays the zero vector |
| BoidRules.CohesionShape | src/game/boid.js:63-70 | no pull without friends; with friends the pull points from the boid to the friends' mean and is a hundredth of that distance |
| BoidRules.CohesionAtCenter | src/game/boid.js:63-70 | a boid at its friends' mean feels no pull |
| BoidRules.SeparationTermShape | src/game/boid.js:75-80 | a friend at distance d < 1 pushes the boid directly away from itself with strength 0.7 * (1 - d); a friend at the same spot pushes with zero |
| BoidRules.SeparationDividesSum | src/game/boid.js:72-86 | the force is the sum of the pushes divided by 150; without friends it is zero |
| BoidRules.AlignmentMatched | src/game/boid.js:95-102 | a boid flying exactly like all its friends gets no velocity-matching force |
| BoidRules.StepShape | src/game/boid.js:124-147 | an update selects the state, integrates the total force, always recomputes `forceAway`, and while returning keeps the previous `forceToCenter` and `forceToMatchVelocity` |
| BoidRules.StepKeepsMoving | src/game/boid.js:124-147 | whatever its friends, a boid on a unit heading with speed in [0.7, 1.5] stays so after an update with delta > 0 |
| Motion.AccelerationBound | src/game/boid.js:37-40 | the steering contribution is at most maxForce * delta / mass long |
| Motion.DisplacementBounds | src/game/boid.js:42-45 | for a non-zero unclamped velocity, the displacement length lies in [minSpeed * delta, maxSpeed * delta] |
| Motion.AdvanceMoving | src/game/boid.js:47-51 | a displacement in that band gives a unit direction and a speed in [minSpeed, maxSpeed], and equals direction * speed * delta |
| Motion.IntegrateMoves | src/game/boid.js:36-52 | for a non-zero unclamped velocity, integrate leaves speed in [minSpeed, maxSpeed], a unit direction, and a displacement of direction * speed * delta |
| Motion.IntegrateStalls | src/game/boid.js:36-52 | when the unclamped velocity is zero the body stays in place with zero direction and zero speed |
| Motion.UnclampedNonZero | src/game/boid.js:37-44 | a body faster than maxForce / mass on a unit heading cannot be stopped in one step |
| Motion.IntegrateKeepsMoving | src/game/boid.js:36-52 | a moving body whose band starts above maxForce / mass is still moving after any step |
| Motion.IntegrateSpeedAtMost | src/steering.js:39-55 | with no lower clamp the new speed lies in [0, maxSpeed] whatever the steering |
| Steering.SeekShape | src/game/steering.js:4-10 | away from the target, seek has length abs(speed * delta) and points towards the target when speed * delta > 0; at the target it is zero |
| Steering.FleeShape | src/game/steering.js:12-18 | away from the target, flee has length abs(speed * delta) and points away from it when speed * delta > 0; at the target it is zero |
| Steering.FleeIsSwappedSeek | src/game/steering.js:4-18 | flee(c, t) equals seek(t, c) |
| Steering.FleeIsOppositeSeek | src/game/steering.js:4-18 | flee(c, t) is the negation of seek(c, t) |
| Steering.SeekApproaches | src/game/steering.js:4-10 | a step along seek brings a point that is at least a step away exactly speed * delta closer to the target |
| Flock.Near | src/game/world.js:33-43 | the neighbour list never contains the querying boid and is no longer than the array |
| Flock.NearMembers | src/game/world.js:35-40 | a boid is a neighbour exactly when it is another boid of the array strictly closer than the cutoff |
| Flock.NearAppend | src/game/world.js:35-41 | neighbours keep array order: the query distributes over concatenation |
| Flock.Boid.constructor | src/game/boid.js:22-34 | a new boid flocks, has no friends, and has maxSpeed 1.5, minSpeed 0.7, maxForce 0.1, mass 1 |
| Flock.Boid.Integrate | src/game/boid.js:36-52 | the motion fields become the clamped integration step; nothing else changes |
| Flock.Boid.FindLocalAveragePoint | src/game/boid.js:54-61 | the loop computes the mean of the friends' positions |
| Flock.Boid.GetForceTowardCenterOfFriends | src/game/boid.js:63-70 | the loop result is the cohesion force of the friends |
| Flock.Boid.GetForceAwayFromNearby | src/game/boid.js:72-86 | the loop result is the separation force of the friends |
| Flock.Boid.GetForceToMatchVelocity | src/game/boid.js:88-103 | the loop result is the velocity-matching force of the friends |
| Flock.Boid.Update | src/game/boid.js:124-147 | friends become the boids of the world closer than 1, and the boid's state becomes one `Step` of the rules |
| Flock.Boid.SteerAndIntegrate | src/game/boid.js:127-146 | once friends are known, the state and the recorded forces follow `Step`; friends are unchanged |
| Flock.Boid.Steer | src/game/boid.js:127-144 | the state becomes the selected mode; the returned sum is the total steering force of that mode; separation is always recorded, and cohesion and alignment are recorded while flocking and kept while returning |
| Flock.Boid.SteerFlocking | src/game/boid.js:131-138 | records cohesion, separation and alignment of the friends and returns their sum |
| Flock.Boid.SteerReturning | src/game/boid.js:139-143 | records separation and returns it plus a seek towards the flocking centre at the boid's speed |
| Flock.World.constructor | src/game/world.js:2-6 | a new world has no boids, no controllers and counter 0 |
| Flock.World.AddController | src/game/world.js:8-14 | a missing or empty name increments the counter and registers under its decimal string; a given name leaves the counter alone and overwrites any entry; boids are unchanged |
| Flock.World.AddBoid | src/game/world.js:16-18 | the boid is appended; controllers and counter are unchanged |
| Flock.World.GetBoid | src/game/world.js:29-31 | the boid at that array index, or nothing when the index is out of range |
| Flock.World.FindNearbyBoids | src/game/world.js:33-43 | the loop returns exactly the neighbour list `Near` |
| Flock.World.Update | src/game/world.js:20-27 | every controller is called once, in registration order, before any boid; when no boid is in the array twice, the boids end in the states of one `Tick`, and each boid's friends are the boids it saw on its own turn; the array is unchanged; a moving boid is still moving |
| Flock.World.UpdateBoids | src/game/world.js:24-26 | when no boid is in the array twice, the boids end as the turns in array order leave them, each with the friends it saw on its own turn; moving boids stay moving |
| Flock.World.TakeTurn | src/game/world.js:25 | one iteration takes the flock from `i` turns to `i + 1` turns; boid `i`'s friends are those it sees then, and earlier boids keep theirs |
| Flock.World.UpdateBoid | src/game/world.js:25 | boid `i`'s friends become the boids the index query finds around it in the current flock, and its state becomes one `Step` against their motion fields; no other boid changes; a moving boid keeps moving |
| Flock.NearIsPick | src/game/world.js:33-43 | with no boid twice, the neighbours among the first n boids are the boids at the indices the query on motion fields returns |
| Flock.NearIsNeighbours | src/game/world.js:33-43 | with no boid twice, `findNearbyBoids` at friendDistance returns the boids at those indices, and what the boid sees of them is `Neighbours` |
| WorldRules.NearIndicesMembers | src/game/world.js:33-43 | an index is listed exactly when it is another body among the first n strictly closer than the cutoff; the list is strictly increasing, that is in array order |
| WorldRules.SweepUntouched | src/game/world.js:24-26 | before its own turn a boid still has the state the tick found it in |
| WorldRules.SweepSettled | src/game/world.js:24-26 | after its own turn a boid keeps the state that turn gave it |
| WorldRules.TurnOfIsTurn | src/game/boid.js:124-147 | the turn of boid i is one `Step` of its state against the neighbours it sees in the current flock |
| WorldRules.TurnsStep | src/game/world.js:24-26 | turn n replaces boid n by one `Step` against its current neighbours and changes no other boid |
| WorldRules.TurnOnValues | src/game/world.js:24-26 | the flock after i turns with boid i stepped against its current neighbours is the flock after i + 1 turns, and those neighbours are the ones boid i sees on its turn |
| WorldRules.TurnsFrame | src/game/world.js:24-26 | after n turns a boid before n is as its own turn left it, and a boid from n on is untouched |
| WorldRules.TurnSees | src/game/world.js:24-26 | on its turn boid i steps from its state before the tick; it sees the earlier boids as the tick leaves them and the later boids as the tick found them |
| WorldRules.FriendIndicesMembers | src/game/boid.js:125 | boid j's friends are exactly the other boids closer than 1 to where it stood before the tick: earlier boids at their new positions, later ones at their old |
| WorldRules.TickIsTurns | src/game/world.js:24-26 | after a tick every boid is one `Step` from its old state against what it saw on its turn |
| WorldRules.TickKeepsMoving | src/game/world.js:20-27 | a tick with delta > 0 keeps every moving boid moving |
| Decimal.DecimalString | src/game/world.js:11-13 | the key of a number is a non-empty string of digits |
| Decimal.DecimalRoundTrip | src/game/world.js:11-13 | the decimal key of n reads back as n |
| Decimal.DecimalStringInjective | src/game/world.js:10-13 | different counter values give different controller names |
| Vehicles.DesiredAtMost | src/steering.js:4-18 | for delta > 0 the desired velocity of seek or flee at maxSpeed is at most maxSpeed * delta long |
| Vehicles.VehicleStepReachesDesired | src/steering.js:39-66 | when the steering is within maxForce * delta, one integrate moves the vehicle by exactly the desired velocity and takes its direction and speed |
| Vehicles.SeekOnCourse | src/steering.js:58-64 | a seek vehicle heading straight at its target at maxSpeed is not steered |
| Vehicles.Vehicle.constructor | src/steering.js:25-37 | a new vehicle has maxSpeed 5, maxForce 0.2, mass 1, no friends, and strategy 'seek' unless one is given |
| Vehicles.Vehicle.Integrate | src/steering.js:39-55 | the motion fields become the step with no lower clamp; for delta > 0 the speed is at most maxSpeed |
| Vehicles.Vehicle.Update | src/steering.js:57-71 | an unknown strategy fails and changes nothing; otherwise the vehicle integrates the desired velocity at maxSpeed minus its per-tick velocity; only position, direction and speed change |
| LegacyGame.ScanMinimum | src/game.js:2-12 | the search keeps the minimum distance over the other boids seen; the boid found is another boid at that distance, and every other boid before it is strictly farther |
| LegacyGame.ClosestFriendSpec | src/game.js:2-14 | the closest friend is never the boid itself, is closer than 1, is nearest, and wins ties by coming first; there is none exactly when no other boid is closer than 1 |
| LegacyGame.FindClosestFriend | src/game.js:2-14 | the loop returns the closest friend of the world's boids in visiting order |
| LegacyGame.ScanAtMinimum | src/game.js:2-12 | the search by index keeps the minimum distance over the other boids; an index found is another boid at that distance, and with none found the distance is the starting one |
| LegacyGame.ClosestIndexSpec | src/game.js:2-14 | the closest index is another boid closer than 1 and no farther than any other; there is none exactly when no other boid is closer than 1 |
| LegacyGame.ScanIsScanAt | src/game.js:5-12 | with no boid stored twice, the search by identity is the search by index on the positions |
| LegacyGame.ClosestFriendIsAt | src/game.js:2-14 | with no boid stored twice, the closest friend is the boid at the closest index |
| LegacyGame.LegacyStepLength | src/game.js:23-25 | with a unit direction the per-tick move has length abs(speed * delta) |
| LegacyGame.LegacyBoid.constructor | src/game.js:16-20 | a new boid has the given motion fields and no friend |
| LegacyGame.LegacyBoid.Update | src/game.js:22-29 | the position moves by direction * speed * delta, then the friend becomes the closest friend seen from the new position |
| LegacyGame.LegacyWorld.constructor | src/game.js:34-36 | a new world has no boids |
| LegacyGame.LegacyWorld.Order | src/game.js:43-45 | the boids in key order, one per key |
| LegacyGame.LegacyWorld.AddBoid | src/game.js:38-40 | a fresh boid is stored under the key, replacing any boid there; other keys are unchanged |
| LegacyGame.LegacyWorld.GetBoid | src/game.js:54-56 | the boid stored under the key, or nothing |
| LegacyGame.LegacyWorld.ForEachBoid | src/game.js:48-52 | the action is given the boids in key order |
| LegacyGame.LegacyWorld.Update | src/game.js:42-46 | every stored boid moves exactly once, by one step of its own velocity; direction and speed are unchanged; the friend of the boid at key index j is the boid at the closest index among the positions of turn j, with the boids up to j moved and the rest not |
| LegacyGame.LegacyWorld.MoveInOrder | src/game.js:43-45 | each boid moves once, by its step, and takes the friend its own turn finds |
| LegacyGame.LegacyWorld.MoveBoid | src/game.js:44 | boid i moves by its step; its friend becomes the closest friend seen from its new position, which is the boid at the closest index among the positions of turn i; earlier boids keep their friends |
| LegacyGame.EachBoidOnce | src/game.js:42-52 | every stored boid appears exactly once in the visiting order |
| Camera.ZoomOnlyStarts | src/CameraController.js:10-30 | zoom leaves fov and factor alone, moves ZoomedOut to In and ZoomedIn to Out, and does nothing in In or Out |
| Camera.UpdateSettles | src/CameraController.js:38-54 | after an update the machine is ZoomedIn or ZoomedOut, and a second update changes nothing |
| Camera.ZoomRounds | src/CameraController.js:18-54 | zoom then update flips a settled machine onto the other side's fov and factor; two rounds from ZoomedOut return to ZoomedOut with fov 75 and the out factor |
| Camera.CameraController.constructor | src/CameraController.js:58-61 | a new controller starts ZoomedOut |
| Camera.CameraController.SetPointerLockControls | src/CameraController.js:63-67 | the out factor is the controls' current factor and the in factor is one eighth of it |
| Camera.CameraController.SetFov | src/CameraController.js:69-72 | sets the camera's fov |
| Camera.CameraController.SetMovementFactor | src/CameraController.js:74-76 | sets the controls' factor; fails when no controls are set |
| Camera.CameraController.SetState | src/CameraController.js:78-80 | replaces the current state |
| Camera.CameraController.Update | src/CameraController.js:38-54 | In sets fov 15, the in factor and ZoomedIn; Out sets fov 75, the out factor and ZoomedOut; settled states change nothing; without controls the fov is set but the step fails |
| Camera.CameraController.Zoom | src/CameraController.js:86-88 | the state follows the zoom transition of the current state |
| Settings.ToggleOnlyOwn | src/index.js:72-94 | a toggle negates its own flag and leaves every other flag and switch alone |
| Settings.SetFlag | src/index.js:72-94 | sets the named flag to the value and keeps every other flag, both switches and the property list |
| Settings.ToggleTwice | src/index.js:72-94 | toggling the same flag twice restores the config |
| Settings.InitialFlagsOff | src/index.js:63-70 | every flag of a new config is false |
| Settings.AssignKeepsKeys | src/persistance.js:20 | writing a property keeps the property list |
| Settings.AssignOnlyOwn | src/persistance.js:20 | writing an existing property sets it and no other |
| Settings.AssignFlagOnlyOwn | src/persistance.js:20 | writing a `show*` flag sets it and no other property |
| Settings.InitialWellKeyed | src/index.js:63-70 | a new config lists each of its properties once |
| Settings.ToggleAssignWellKeyed | src/index.js:72-94 | toggling a flag or writing a property keeps the property list exact |
| Settings.ToggleLateWellKeyed | src/index.js:96-102 | toggling zoom or fullscreen creates the property the first time, keeps the list exact, and negates the property's truth value |
| Settings.Config.constructor | src/index.js:63-70 | all six flags false, no zoom or fullscreen property |
| Settings.Config.ToggleForceLine | src/index.js:72-74 | negates showForceLine only |
| Settings.Config.ToggleAttractLine | src/index.js:76-78 | negates showAttractLine only |
| Settings.Config.ToggleRepelLines | src/index.js:80-82 | negates showRepelLine only |
| Settings.Config.ToggleFollowLine | src/index.js:84-86 | negates showFollowLine only |
| Settings.Config.ToggleFriendLines | src/index.js:88-90 | negates showFriendLines only |
| Settings.Config.ToggleAxis | src/index.js:92-94 | negates showAxis only |
| Settings.Config.ToggleZoom | src/index.js:96-98 | negates zoom, creating the property the first time |
| Settings.Config.ToggleFullscreen | src/index.js:100-102 | negates fullscreen, creating the property the first time |
| Settings.Config.Set | src/persistance.js:20 | `config[key] = value` on an existing property |
| Settings.Context.constructor | src/index.js:106-110 | uses the given config or a new one; simulationRunning and zoom start false |
| Settings.Context.ToggleZoom | src/index.js:112-114 | negates zoom |
| Settings.Context.ToggleFullscreen | src/index.js:116-118 | negates fullscreen, a missing value counting as false |
| Settings.NegatedTwice | src/index.js:116-118 | toggling twice restores the truth value; a toggle turns the switch on exactly when it was not on |
| Persistence.LocalStorage.SetItem | src/persistance.js:26 | stores the string under the key |
| Persistence.PropertyStringRoundTrip | src/persistance.js:10-27 | a boolean written as a string reads back as itself |
| Persistence.InitializedLookup | src/persistance.js:18-21 | reading keys sets each existing property among them to its stored boolean and adds no property |
| Persistence.StoredLookup | src/persistance.js:24-27 | writing keys stores each property's string under its name and leaves other entries alone |
| Persistence.StoreThenInitializeKey | src/persistance.js:18-27 | the round trip for one property |
| Persistence.StoreThenInitialize | src/persistance.js:18-27 | storing a config and initializing a config with the same properties from that storage reproduces the stored values |
| Persistence.InitializeFromEmpty | src/persistance.js:14-21 | initializing from an empty store sets every existing property to false |
| Persistence.InitializeConfig | src/persistance.js:18-22 | with storage, every property is read back; without storage nothing changes |
| Persistence.StoreConfigChanges | src/persistance.js:24-28 | with storage, every property is written and the config is only read; without storage nothing changes |
| Keys.EachFlagOneKey | src/index.js:27-33 | each flag has exactly one key |
| Keys.ZKeyAsWrittenNeverZooms | src/index.js:34-36 | the Z handler as written never zooms, and throws for the null controller |
| Keys.ZKeyIntended | src/index.js:34-36 | the intended Z handler zooms exactly when there is a controller and never throws |
| Keys.ZKeyHandler | src/index.js:34-36 | the Z handler zooms the controller when there is one |
| Keys.ToggleConfigFlag | src/index.js:28-33 | runs the toggle of the given flag |
| Keys.HandleKeyDown | src/index.js:189-202 | a mapped key runs its handler and an unmapped key changes nothing; either way the config is then saved; F asks for fullscreen when it is now on and the page allows it |

## Left out

- Floating point: numbers are exact reals. Rounding, NaN and Infinity are not modelled.
- Division by zero is not modelled:
  - integration divides by `delta`, so it requires `delta != 0`, and its bounds are proved for `delta > 0`;
  - cohesion without friends divides by zero in the source; the model gives the zero vector.
- three.js `Vector3` is not part of this model. Its operations are written out over reals in `vectors.dfy`, and `Math.sqrt` is a parameter constrained by `IsSqrt`. `updateProjectionMatrix` is not modelled.
- `Boid.createWithRandomPositionAndDirection` and `src/mathUtils.js` are not part of this model. They use randomness and trigonometry.
- Rendering, scene and VR setup, resource loading, the page and the pointer-lock controls' DOM handling are outside the model. The controls are reduced to their movement factor and the camera to its fov. `console.log` output is not modelled.
- Flock.World.Update: the boids' new states and friends are stated only when no boid is in the array twice. `addBoid` does not prevent pushing a boid twice, and such a boid would take two turns per tick. For that case the model states only that moving boids keep moving.
- Flock.World.Update: a controller's `update(delta)` is outside the model, so it is recorded in the returned trace and assumed to change no boid and nothing in the world. The frame and the `Tick` result rely on that assumption.
- Flock.World.Update: controllers are called in registration order. JavaScript's `Object.values` puts integer-like names first, in ascending order, and other names after them in insertion order. The model does not capture that reordering.
- LegacyGame.LegacyWorld.Update: keys are visited in first-insertion order. `for ... in` puts integer-like keys first, in ascending order. The model does not capture that reordering. The same holds for `ForEachBoid` and `FindClosestFriend`.
- Flock.Boid.SteerFlocking: the source writes `forceToCenter` before it computes `forceAway`. The model computes all three forces first and then writes the fields. No getter reads a force field, so the final state is the same.
- Flock.Boid.Update: the world's boids are read through `findNearbyBoids` only. Aliasing between a boid's `position` vector and another object's vector is not modelled. Vectors are values here.
- Vehicles.Vehicle.Update: an unknown strategy throws a `TypeError` in the source. The model returns `ok == false` and changes nothing.
- Vehicles.Vehicle.Update: names inherited from `Object.prototype` are not modelled. The model treats every name other than `seek` and `flee` as unknown. In the source, `strategies["constructor"]` is the inherited `Object` function. It returns the vehicle's own `position`, so `update` does not throw and moves the vehicle as if that position were the desired velocity. The other inherited names (`toString`, `valueOf`, `hasOwnProperty`, `__proto__`, ...) throw before any write, as the model says.
- Camera.CameraController.Update: calling `update` in state In or Out before `setPointerLockControls` throws in the source after the fov is set. The model returns `ok == false` with the fov set and the state unchanged.
- Keys.HandleKeyDown: the F handler's `webkitRequestFullscreen` is a DOM call, reduced to the returned `requestFullscreen` flag. The Z handler uses the corrected test (see Findings).
- Persistence: `storageAvailable` is computed once from the browser. Here it is a parameter. The storage is a string-to-string map.
- `Context.simulationRunning` is only initialised. Nothing in the modelled code changes it.

## Findings

| source | as written | input that shows it | evidently intended | confidence | as-written member | corrected member |
|---|---|---|---|---|---|---|
| src/index.js:34-36 | `cameraController \|\| cameraController.zoom()` calls `zoom` only when the controller is falsy | the controller passed at src/index.js:222 is `null`, so pressing Z calls `null.zoom()` and throws; with a controller, `zoom` is never called | `cameraController && cameraController.zoom()`: zoom when there is a controller, do nothing otherwise | not executed | Keys.ZKeyAsWrittenNeverZooms | Keys.ZKeyIntended |
