# Vehicle controller of a Unity racing game, modelled in Dafny

The core of this racing game is `VehicleController`, the component that drives a
damageable, modifiable car. Each frame it reads a (turn, throttle) input vector. A
positive throttle accelerates toward top speed and a negative one drives toward
reverse top speed, both at the acceleration rate. With no throttle the car coasts
toward zero at the deceleration rate. A turn torque is emitted only outside a small
dead zone, and the forward velocity is always set from the speed. Hazards call
`ApplyDamage`. It lowers health, clamped at zero, and rescales the four derived stats
(top speed, acceleration, brake force, handling) from the base stats by the health
percentage. When health reaches zero it ends the race and disables the component.
`ActivateModule` looks a module up by name. For a known module it resets the
stats to the base stats and multiplies each one by the factor its category key
("speed", "acceleration", "handling", "braking") holds in the modifier-effect map.

The project has five modules:

- `Mathf` (mathf.dfy): the Unity helpers the controller calls (`Abs`, `Sign`, `Min`,
  `Max`, `MoveTowards`), over exact reals.
- `Motion` (motion.dfy): one frame as values. `NextSpeed` gives the speed after a
  frame, `Coast` gives the coasting step, and `TurnTorque` gives the torque command.
  `SpeedRun` repeats a frame `n` times, and lemmas give closed forms for sustained
  throttle, reverse throttle and coasting.
- `Performance` (performance.dfy): the derived stats as a value. `Scaled` is the
  health scaling, `WithModifiers` is the effect pass, and `DamagedHealth` /
  `HealthAfter` give the health after hits, with their properties.
- `VehicleSim` (vehicle.dfy): `class VehicleController`, with the source's fields and
  methods. Each method's frame (`modifies this`field`) names exactly the fields it
  may change, and its `ensures` ties the new state to the functions above.
- `Scenarios` (scenarios.dfy): client methods that drive a controller through
  concrete situations using only the method contracts.

Unity collaborators become arguments:

- `Start(inputManagerFound, moduleManagerFound)` says whether the input manager and
  the module manager were found.
- `Update` receives the input vector, the frame time and the input manager's two
  sensitivities.
- `ActivateModule` receives the set of names for which the module manager's
  `GetActiveModules` yields a module.
- `ApplyDamage` receives whether a game manager exists.
- Calls to `EndRace` are counted in `endRaceNotifications`.

## Behaviour of the code that the model keeps

- `ApplyDamage` rescales the stats from the base stats only. Active modifier
  factors are not reapplied.
- `ApplyModuleEffects` resets to the unscaled base stats, so activating a module
  undoes the damage degradation (`Scenarios.ModuleActivation`).
- Reverse throttle steps by `currentAcceleration`, not `currentBrakeForce`
  (`Scenarios.BrakeFromRest`). `currentBrakeForce` is computed but never read.
- `ApplyDamage` has no guard against repeated destruction. Every call that leaves
  health at zero calls `EndRace` again (`Scenarios.DestructionNotifies`). Disabling
  the component stops only `Update`, so damage and module activation still run
  afterwards.
- `Start` creates an empty effect map and nothing fills it. A known module therefore
  always resets the stats to the base stats. The effect pass is still modelled over
  any map.

## Model

| member | source | states |
|---|---|---|
| `Mathf.MoveTowardsStep` | VehicleController.cs:53-57 | `MoveTowards` lands on the target when it is within `maxDelta`. A non-negative step never passes the target and is at most `maxDelta` long. It is a full step unless it reaches the target. |
| `Motion.CoastStep` | VehicleController.cs:74-84 | A coasting frame leaves speed 0 at 0. It never passes zero, so the direction is kept. It slows by at most the deceleration step, and by exactly that step unless it stops. |
| `Motion.NextSpeedStep` | VehicleController.cs:48-62 | Positive throttle moves the speed toward `+maxSpeed` and negative throttle toward `-maxSpeed`, each by at most the acceleration step and never past the target. Zero throttle moves it toward zero by at most the coast step, never reversing. |
| `Motion.ThrottleMagnitudeIgnored` | VehicleController.cs:48-58 | Two throttles with the same sign give the same next speed: the step does not depend on the throttle's magnitude. |
| `Motion.FullThrottleRun` | VehicleController.cs:51-54 | From at or below top speed, `n` frames of positive throttle give `min(maxSpeed, speed + n * step)`: a full step per frame, then holding at top speed. |
| `Motion.FullBrakeRun` | VehicleController.cs:55-58 | From at or above `-maxSpeed`, `n` frames of negative throttle give `max(-maxSpeed, speed - n * step)`. |
| `Motion.CoastRun` | VehicleController.cs:59-62 | With a positive coast step `d`, `n` coasting frames give exactly 0 once `n * d >= abs(speed)`, and otherwise `speed - sign(speed) * n * d`. |
| `Motion.CoastSettles` | VehicleController.cs:74-84 | Enough coasting frames bring any speed to exactly zero. |
| `Motion.TorqueFollowsTurn` | VehicleController.cs:64-68 | With positive handling, frame time and sensitivity, a torque is emitted exactly when `abs(turn) * handling > 0.01`, and it has the sign of the turn input. |
| `Performance.DamagedHealth` | VehicleController.cs:116 | Health after a hit is never negative. A non-negative hit never raises it. It is zero exactly when the hit is at least the remaining health, and otherwise it is reduced by the hit. |
| `Performance.HealthAfterHits` | VehicleController.cs:114-116 | After a sequence of non-negative hits, the health is `max(0, health - total damage)`. The clamp acts only once. |
| `Performance.DestroyedStaysAtZero` | VehicleController.cs:116-124 | Once health is zero, no sequence of non-negative hits raises it again. |
| `Performance.ScaledAtFullHealth` | VehicleController.cs:150-156 | A health percentage of 1 gives back the base stats. |
| `Performance.ScaledWithinBase` | VehicleController.cs:150-156 | With non-negative base stats and a percentage in [0, 1], each scaled stat lies between 0 and its base value. |
| `Performance.NoModifiersIsBase` | VehicleController.cs:127-148 | With the empty effect map, the only map the code builds, the effect pass gives the base stats. |
| `Performance.UnknownKeyIgnored` | VehicleController.cs:132-146 | Adding a key outside the four categories, with any factor, leaves the effect pass's result unchanged. |
| `Performance.OnlyCategoriesMatter` | VehicleController.cs:132-146 | The effect pass depends only on the entries of the four category keys. |
| `Performance.FactorScalesOneStat` | VehicleController.cs:134-145 | A single factor for "speed", "acceleration", "braking" or "handling" scales top speed, acceleration, brake force or handling respectively, and no other stat. |
| `VehicleSim.VehicleController.constructor` | VehicleController.cs:7-26 | A freshly created component holds its configuration. Speed, health and the derived stats are zero, the flags are false, and it is enabled. |
| `VehicleSim.VehicleController.Default` | VehicleController.cs:7-13 | The declared configuration: base stats 100, 20, 30, 10, maximum health 100, deceleration 5. |
| `VehicleSim.VehicleController.Start` | VehicleController.cs:28-38 | After `Start`, health equals maximum health, the effect map is empty, each derived stat equals its base stat, and the collaborator flags record what was found. |
| `VehicleSim.VehicleController.Update` | VehicleController.cs:40-72 | Without input, or when disabled, nothing changes and no command is emitted. Otherwise `isAccelerating` holds iff throttle > 0 and `isBraking` iff throttle < 0, so they are never both true. The new speed is `NextSpeed` with step `currentAcceleration * dt * accelerationSensitivity` and coast step `currentDeceleration * dt`. The torque is `TurnTorque(...)` and the forward velocity is the new speed. |
| `VehicleSim.VehicleController.ApplyDeceleration` | VehicleController.cs:74-84 | The new speed is `Coast(speed, currentDeceleration * dt)`, and only the speed changes. |
| `VehicleSim.VehicleController.ActivateModule` | VehicleController.cs:98-107 | With no module manager, or a name that yields no module, the stats are unchanged. Otherwise each stat is its base stat times its category's factor. |
| `VehicleSim.VehicleController.GetCurrentSpeed` | VehicleController.cs:109-112 | Returns the current speed. |
| `VehicleSim.VehicleController.ApplyDamage` | VehicleController.cs:114-125 | Health becomes `max(0, health - damage)` and never rises for a non-negative hit. Each stat becomes its base stat times `health / maxHealth`, with modifiers discarded. At zero health the component is disabled and `EndRace` is counted once more if a game manager exists, on every such call. Above zero, neither changes. |
| `VehicleSim.VehicleController.ApplyModuleEffects` | VehicleController.cs:127-148 | After the loop over the effect map, each stat is its base stat times the factor of its category key. Unknown keys are ignored and the previous stats play no part, so a second pass gives the same stats. |
| `VehicleSim.VehicleController.UpdateStatsBasedOnHealth` | VehicleController.cs:150-156 | Each derived stat becomes its base stat times the given percentage. |
| `VehicleSim.VehicleController.ResetStats` | VehicleController.cs:158-164 | Each derived stat becomes its base stat. |
| `VehicleSim.VehicleController.HandleVehicleDestruction` | VehicleController.cs:166-175 | The component is disabled, and `EndRace` is counted if a game manager exists. |
| `Scenarios.FullThrottle` | VehicleController.cs:51-54 | Default configuration, one-second frames: full throttle gives speeds 20, 40, 60, 80, 100, then holds at 100. |
| `Scenarios.ThrottleThenCoast` | VehicleController.cs:59-62 | A half-throttle frame gives 20, the same as full throttle. Coasting then gives 15, 10, 5, 0 and stays at 0. |
| `Scenarios.BrakeFromRest` | VehicleController.cs:55-58 | Reverse throttle from rest gives -20, then -40, stepping at the acceleration rate. |
| `Scenarios.Steering` | VehicleController.cs:64-71 | A turn input of 0.5 at handling 10 emits torque 50. A turn input of 0.0005 emits none. The forward velocity accompanies both. |
| `Scenarios.NoInput` | VehicleController.cs:42 | Without an input manager a frame emits nothing and the speed stays 0. |
| `Scenarios.DamageScalesStats` | VehicleController.cs:114-119 | A hit of 30 at full health leaves health 70 and stats 70, 14, 21, 7. |
| `Scenarios.DestructionNotifies` | VehicleController.cs:121-124 | 20 health and a hit of 50 give health 0 and one `EndRace`. A further hit of 10 gives a second `EndRace`. The disabled component then emits no commands. |
| `Scenarios.ModuleActivation` | VehicleController.cs:98-107 | At half health an unknown module leaves the halved stats. A known module restores the full base stats, and activating it again gives the same stats. |
| `Scenarios.NoModuleManager` | VehicleController.cs:100 | Without a module manager, activating a module leaves the stats unchanged. |

## Left out

- Device input: reading the input axes and scaling them by the sensitivities
  (InputManager.cs:8-14) is device I/O. The scaled vector and the sensitivities are
  arguments of `Update`. The source applies each sensitivity a second time inside
  `Update`, and the model keeps that.
- Hazard forwarding: `HazardManager.CheckHazardCollision` and
  `VehicleController.OnCollisionEnter` only match a tag, forward a fixed damage to
  `ApplyDamage` and log. The model covers `ApplyDamage` itself.
- `GameManager.EndRace` and `StartRace` only log. `EndRace` calls are counted in
  `endRaceNotifications`.
- Engine plumbing: `GetComponent`, `FindObjectOfType`, `Rigidbody.AddTorque`,
  `rb.velocity` and `transform.forward` are left out. The torque and the forward
  velocity are returned as `TickOutput`. The engine's rule that a disabled
  component is not ticked is the `enabled` check at the top of `Update`.
- `ModuleManager` is not part of this model. Its `GetActiveModules` lookup is the
  set of names passed to `ActivateModule`. The module object handed to
  `ApplyModuleEffects` is never read by it, so the parameter is dropped.
- `Mathf` is not part of this model. `MoveTowards` follows Unity's documented
  definition, with the sign factor written as two cases.
- Floating point: all numbers are exact reals. Single-precision rounding and NaN or
  infinity are not modelled, and the dead-zone constant `0.01f` is the exact real
  0.01.
- `VehicleSim.VehicleController.constructor`: requires a positive maximum health.
  With zero, the source's division by zero would produce NaN or infinity, which
  reals cannot express.
- Dictionary iteration order: the effect loop picks keys in an arbitrary order. This
  loses nothing, because each key occurs once and real multiplication commutes.
