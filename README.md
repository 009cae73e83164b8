# Enemy waves: a verified model of the combat bookkeeping

This project models the discrete rules of a top-down 2D wave-survival game
written for Unity in C#: the shared Health component, the enemy's movement
policy and attack gate, enemy projectiles, the wave spawner's placement
search, the character-selection screen, and the two player controllers.

Each source file becomes one Dafny module:

| module | source | form |
|---|---|---|
| `HealthProtocol` (health.dfy) | Scripts/Health.cs | class `Health` over specification functions |
| `EnemyAgent` (enemy.dfy) | Scripts/Enemy.cs | movement policy as functions, class `Enemy` for the attack clock, counter and volleys |
| `ProjectileRules` (projectile.dfy) | CHARACTER/Scripts/EnemyProjectile.cs | hit table as a function, class `EnemyProjectile` for the per-step accumulators |
| `WaveSpawning` (wave_spawner.dfy) | CHARACTER/Scripts/WaveSpawner.cs | class `WaveSpawner`; the placement loop proved against `Placement` |
| `CharacterSelection` (character_select.dfy) | CHARACTER/Scripts/CharacterSelectManager.cs | class `CharacterSelectManager` with a `Valid()` invariant |
| `PlayerInput` (player_input.dfy) | the key handling both controllers share | function `Axis`, method `ReadAxes` |
| `SpriteFlipPlayer` (player_flip.dfy) | CHARACTER/Scripts/PlayerController.cs | class `PlayerController` |
| `MouseAimPlayer` (player_aim.dfy) | Scripts/PlayerController.cs | class `PlayerController` |
| `Geometry` (geometry.dfy) | — | plane vectors over reals |

Modelling conventions:

- Game floats are Dafny `real`s.
- `Time.time`, `Time.fixedDeltaTime`, every `Random` draw, key and mouse
  state, the camera's world-to-viewport projection, the overlap probe and
  the smoothing step's result are parameters of the operations that read
  them.
- Distances, normalised directions and angles (`Atan2` in degrees minus 90)
  are handed in by the caller; the model never takes a square root.
- `Instantiate` and `Destroy` become logs and flags on the object that calls
  them: `Enemy.shots`, `WaveSpawner.spawned`, `destroyed`.
- Health notifications are a ghost log, `Health.events`. It records every
  `OnHealthChanged` and `OnDeath` raise, whether or not anyone is subscribed:
  it is a log of raise attempts, not of deliveries. The `OnDeath` invocation
  list is `Health.deathListeners`.
- Unity runs `Update` and `FixedUpdate` only while a component is enabled.
  The player controllers write this gate out, so `HandleDeath` visibly stops
  them.

In these places the code does something a reader might not expect; the model
follows the code:

- Death is not idempotent. `TakeDamage` calls `Die()` on every hit that
  leaves the counter at 0, including hits on a component already at 0
  (`HealthProtocol.DeathPerZeroingHit`, `HealthProtocol.RepeatedHitsAtZero`).
- `Heal` has no dead-state guard, so it raises a counter at 0
  (`HealthProtocol.AfterHeal`).
- `TakeDamage` does not reject a negative amount. The clamp still keeps the
  counter in `[0, maxHealth]`.
- The wave spawner re-arms its timer after every due frame with a player,
  also when placement failed and nothing spawned (`WaveSpawning.WaveSpawner.Update`).
- A zero `attackRate` is not rejected. `1f / 0f` is +Infinity, so such an
  enemy attacks once and never again (`EnemyAgent.CooldownAfterAttack`).

## Model

| member | source | states |
|---|---|---|
| `HealthProtocol.Clamp` | Scripts/Health.cs:26 | Mathf.Clamp: result within the bounds when they are ordered, the value itself when already inside, otherwise one of the bounds |
| `HealthProtocol.AfterDamage` | Scripts/Health.cs:25-26 | after any TakeDamage, for any sign of the amount, the counter lies in [0, max]; it is 0 when the hit reaches or passes 0; a non-negative hit never raises it |
| `HealthProtocol.AfterHeal` | Scripts/Health.cs:38-39 | after any Heal the counter lies in [0, max]; a non-negative heal never lowers it; a positive heal below max raises it, including from 0 (no dead guard) |
| `HealthProtocol.DamageEvents` | Scripts/Health.cs:28-33 | one TakeDamage raises exactly one change carrying the post-clamp (current, max) and nothing else when the counter stays positive; otherwise that change followed by one death |
| `HealthProtocol.HealEvents` | Scripts/Health.cs:40 | one Heal raises exactly one change carrying the post-clamp (current, max) and never a death |
| `HealthProtocol.FinalInRange` | Scripts/Health.cs:23-41 | from a counter inside [0, max], any sequence of damage and heal calls ends inside [0, max] |
| `HealthProtocol.OneChangePerCall` | Scripts/Health.cs:23-41 | over any sequence of calls, the number of change notifications equals the number of calls |
| `HealthProtocol.DeathPerZeroingHit` | Scripts/Health.cs:30-33 | over any sequence of calls, the number of death notifications equals the number of damage calls that leave the counter at or below 0 |
| `HealthProtocol.RepeatedHitsAtZero` | Scripts/Health.cs:30-33 | n non-negative hits on a component at 0 raise n deaths: death is not idempotent |
| `HealthProtocol.HealsNeverKill` | Scripts/Health.cs:36-41 | a sequence of heals raises no death, from any starting value |
| `HealthProtocol.Health.constructor` | Scripts/Health.cs:12-15 | Awake: the counter starts equal to maxHealth, with no notifications and no listeners |
| `HealthProtocol.Health.Start` | Scripts/Health.cs:17-21 | Start announces the starting (current, max) and leaves the counter alone |
| `HealthProtocol.Health.TakeDamage` | Scripts/Health.cs:23-34 | the counter becomes AfterDamage of the old one and the log grows by DamageEvents; with max >= 0 the counter ends inside [0, max] |
| `HealthProtocol.Health.Heal` | Scripts/Health.cs:36-41 | the counter becomes AfterHeal of the old one and the log grows by one change notification |
| `HealthProtocol.Health.Die` | Scripts/Health.cs:43-51 | Die appends one death notification and leaves the counter alone; the subscribed handlers are not run (see "Left out") |
| `HealthProtocol.Health.SubscribeDeath` | Scripts/Health.cs:10 | `OnDeath +=` appends the listener to the invocation list |
| `EnemyAgent.DesiredHeading` | Scripts/Enemy.cs:87-114 | Kamikaze always closes in. StaysClose closes in iff d > closeRange, backs off iff d < closeRange*0.5, and holds in the band between. StaysDistant does the same around distantRange and distantRange-1 |
| `EnemyAgent.DesiredVelocityAlongPlayer` | Scripts/Enemy.cs:85-117 | for a unit direction to the player, the smoothing target has squared speed moveSpeed² (0 when holding) and its component along that direction is +moveSpeed toward, -moveSpeed away, 0 when holding |
| `EnemyAgent.CooldownAfterAttack` | Scripts/Enemy.cs:146 | after an attack at time t, with attackRate > 0 no later attack can be ready before t + 1/attackRate; with attackRate == 0 none ever is |
| `EnemyAgent.Volley` | Scripts/Enemy.cs:171-176 | the shotgun loop yields exactly count pellets; pellet i uses spread draw i and its spawn rotation lies within 30 degrees of the direct aim |
| `EnemyAgent.Shots` | Scripts/Enemy.cs:167-182 | no prefab: no projectile; single fire: one on the direct aim; shotgun: shotgunPelletCount (0 when negative), each with a spawn rotation within 30 degrees of the aim and handed the player direction |
| `EnemyAgent.AtMostOneAttackPerCooldown` | Scripts/Enemy.cs:127-149 | however many Update ticks fall in one window of length 1/attackRate, each with its own distance to the player, at most one attack fires in it |
| `EnemyAgent.CounterIsUnclamped` | Scripts/Enemy.cs:207-210 | the private counter after a run of hits is the starting value minus their sum, with no clamp |
| `EnemyAgent.Enemy.constructor` | Scripts/Enemy.cs:56-71 | Awake: full counter, attack ready from time 0, player looked up once, spawn rotation kept |
| `EnemyAgent.Enemy.Update` | Scripts/Enemy.cs:73-79 | without a player nothing changes; otherwise Move's and AttemptAttack's effects both happen |
| `EnemyAgent.Enemy.Move` | Scripts/Enemy.cs:81-125 | the smoothing target follows DesiredHeading; the rotation is set to the aim angle only when facePlayer |
| `EnemyAgent.Enemy.AttemptAttack` | Scripts/Enemy.cs:127-149 | an attack happens only when the clock is ready and the player is within 1.5 (Melee) or 15 (Projectile). Then the clock is re-armed and the melee damage or the shots happen. Otherwise the clock, shots and player health are unchanged |
| `EnemyAgent.Enemy.PerformAttack` | Scripts/Enemy.cs:151-183 | Melee damages the player's Health once when it has one; Projectile appends exactly Shots(...) and leaves the player's Health alone |
| `EnemyAgent.Enemy.SpawnProjectile` | Scripts/Enemy.cs:185-205 | one projectile on the base aim, turned by the spread draw when randomSpread |
| `EnemyAgent.Enemy.TakeDamage` | Scripts/Enemy.cs:207-214 | the counter drops by exactly the amount, unclamped; destruction is requested iff the result is <= 0 |
| `EnemyAgent.Enemy.OnCollisionEnter2D` | Scripts/Enemy.cs:217-230 | a contact damages the player's Health once iff the enemy is Melee or Kamikaze and the other object is the player; the attack clock is not consulted |
| `ProjectileRules.Along` | CHARACTER/Scripts/EnemyProjectile.cs:100 | `direction * speed` as a heading and a non-negative magnitude whose velocity is exactly that product |
| `ProjectileRules.ResolveHit` | CHARACTER/Scripts/EnemyProjectile.cs:150-176 | damage iff not a projectile, carries Health and is the player; self-destruction iff not a projectile and either has no Health or is the player; damage implies destruction |
| `ProjectileRules.LinearSpeedRamp` | CHARACTER/Scripts/EnemyProjectile.cs:114-117 | after n Accelerating steps of length dt the speed is speed + n*accelerationRate*dt |
| `ProjectileRules.TimeAliveIsElapsedTime` | CHARACTER/Scripts/EnemyProjectile.cs:106 | after n fixed steps timeAlive has grown by exactly n*dt |
| `ProjectileRules.EnemyProjectile.constructor` | CHARACTER/Scripts/EnemyProjectile.cs:35-56 | Awake: currentSpeed starts equal to speed, timeAlive at 0, the body at rest |
| `ProjectileRules.EnemyProjectile.Start` | CHARACTER/Scripts/EnemyProjectile.cs:58-73 | launches along transform.up at currentSpeed only if still at rest and not Tracking; otherwise the velocity is unchanged |
| `ProjectileRules.EnemyProjectile.Initialize` | CHARACTER/Scripts/EnemyProjectile.cs:75-102 | a non-zero direction on a non-Tracking projectile sets the heading (the random one for Uncontrolled) and launches; otherwise heading and velocity are unchanged |
| `ProjectileRules.EnemyProjectile.FixedUpdate` | CHARACTER/Scripts/EnemyProjectile.cs:104-144 | timeAlive grows by dt. Linear leaves the velocity alone. Accelerating adds accelerationRate*dt to the speed and keeps the direction. Tracking moves at speed and steers only when a player exists. Uncontrolled turns by at most chaosStrength*5 degrees |
| `ProjectileRules.EnemyProjectile.HandleHit` | CHARACTER/Scripts/EnemyProjectile.cs:150-176 | applies ResolveHit: the player's Health takes the damage once, other Health is untouched, destruction as the table says |
| `WaveSpawning.FirstAcceptable` | CHARACTER/Scripts/WaveSpawner.cs:61-79 | the index returned is the first attempt that is off-screen and unobstructed; every earlier attempt was rejected |
| `WaveSpawning.Placement` | CHARACTER/Scripts/WaveSpawner.cs:58-82 | a non-sentinel placement is off-screen (not strictly inside the unit viewport) and passes the overlap probe |
| `WaveSpawning.CandidateInRing` | CHARACTER/Scripts/WaveSpawner.cs:63-65 | a candidate drawn with a unit direction and a distance in [min, max] lies at squared distance in [min², max²] from the player |
| `WaveSpawning.PlacementIsValid` | CHARACTER/Scripts/WaveSpawner.cs:58-82 | any returned non-zero position is off-screen, unobstructed and between spawnRadiusMin and spawnRadiusMax from the player |
| `WaveSpawning.PlacementUsesThirtyDraws` | CHARACTER/Scripts/WaveSpawner.cs:61 | draws beyond the 30th never influence the placement: at most 30 attempts |
| `WaveSpawning.SpawnResult` | CHARACTER/Scripts/WaveSpawner.cs:42-56 | an enemy is spawned iff the list is assigned and non-empty, the picked entry has a prefab and the placement is not the zero sentinel; it is the picked entry at that placement |
| `WaveSpawning.WeightsIgnored` | CHARACTER/Scripts/WaveSpawner.cs:48 | two lists differing only in spawnWeight spawn the same: the weight is never consulted |
| `WaveSpawning.WaveSpawner.constructor` | CHARACTER/Scripts/WaveSpawner.cs:23-31 | Awake: due at time 0, player looked up once, nothing spawned |
| `WaveSpawning.WaveSpawner.Update` | CHARACTER/Scripts/WaveSpawner.cs:33-40 | acts only when now >= nextSpawnTime and a player is set, and then re-arms the timer to now + timeBetweenSpawns whether or not an enemy spawned; otherwise nothing changes |
| `WaveSpawning.WaveSpawner.SpawnEnemy` | CHARACTER/Scripts/WaveSpawner.cs:42-56 | the spawn log grows by exactly SpawnResult of the picked entry and the placement |
| `WaveSpawning.WaveSpawner.GetValidSpawnPosition` | CHARACTER/Scripts/WaveSpawner.cs:58-82 | the loop returns exactly Placement(...): the first acceptable of 30 candidates, or the zero vector |
| `WaveSpawning.WaveSpawner.SetPlayer` | CHARACTER/Scripts/WaveSpawner.cs:84-89 | a player is set and the next spawn is one interval after now |
| `CharacterSelection.AppendedIsLines` | CHARACTER/Scripts/CharacterSelectManager.cs:65-73 | the text a foreach loop appends is exactly the property lines joined in list order |
| `CharacterSelection.PropertiesLayout` | CHARACTER/Scripts/CharacterSelectManager.cs:63-75 | the properties text is one `<color=green>+ g</color>\n` line per good property followed by one `<color=red>- b</color>\n` line per bad property |
| `CharacterSelection.CharacterSelectManager.constructor` | CHARACTER/Scripts/CharacterSelectManager.cs:32 | the selection starts at the -1 sentinel |
| `CharacterSelection.CharacterSelectManager.Start` | CHARACTER/Scripts/CharacterSelectManager.cs:36-47 | Start leaves nothing selected, confirm disabled, the three placeholder texts shown, and the invariant established |
| `CharacterSelection.CharacterSelectManager.SelectCharacter` | CHARACTER/Scripts/CharacterSelectManager.cs:49-56 | an out-of-range index changes nothing; an in-range one is selected, shown, and enables confirm; the invariant is kept |
| `CharacterSelection.CharacterSelectManager.UpdateUI` | CHARACTER/Scripts/CharacterSelectManager.cs:58-76 | name, description and the properties text (PropertiesText) of the character are shown |
| `CharacterSelection.CharacterSelectManager.ClearSelection` | CHARACTER/Scripts/CharacterSelectManager.cs:78-85 | selection back to -1, confirm disabled, placeholder texts; the invariant holds |
| `CharacterSelection.CharacterSelectManager.OnConfirm` | CHARACTER/Scripts/CharacterSelectManager.cs:87-104 | a no-op without a selection. Otherwise the selected character is spawned, the wave spawner (when present) gets the player and a re-armed timer, and the UI is destroyed |
| `PlayerInput.Axis` | CHARACTER/Scripts/PlayerController.cs:46-49 | an axis is in {-1, 0, 1}, 0 exactly when both or neither key is held, +1/-1 for the positive/negative key alone |
| `PlayerInput.ReadAxes` | CHARACTER/Scripts/PlayerController.cs:41-52 | accumulating W, S, A, D from zero gives each axis in {-1, 0, 1}; x is 0 iff A and D agree, y is 0 iff W and S agree |
| `SpriteFlipPlayer.PlayerController.constructor` | CHARACTER/Scripts/PlayerController.cs:18-26 | Awake subscribes this controller to its Health's OnDeath once and leaves the counter and its log alone |
| `SpriteFlipPlayer.PlayerController.Update` | CHARACTER/Scripts/PlayerController.cs:28-31 | while enabled, input is read; once disabled, moveInput no longer changes |
| `SpriteFlipPlayer.PlayerController.HandleInput` | CHARACTER/Scripts/PlayerController.cs:38-53 | with a keyboard, moveInput becomes the key axes; without one it is unchanged |
| `SpriteFlipPlayer.PlayerController.FixedUpdate` | CHARACTER/Scripts/PlayerController.cs:33-36 | while enabled, Move runs; once disabled, velocity and scale no longer change |
| `SpriteFlipPlayer.PlayerController.Move` | CHARACTER/Scripts/PlayerController.cs:55-68 | the scale becomes (-1,1,1) for leftward input and (1,1,1) for rightward input, and is unchanged when x is 0 |
| `SpriteFlipPlayer.PlayerController.HandleDeath` | CHARACTER/Scripts/PlayerController.cs:72-78 | the controller is disabled and the velocity zeroed |
| `MouseAimPlayer.PlayerController.constructor` | Scripts/PlayerController.cs:18-26 | Awake caches the camera and subscribes this controller to its Health's OnDeath once |
| `MouseAimPlayer.PlayerController.Update` | Scripts/PlayerController.cs:28-31 | while enabled, input is read; once disabled, moveInput no longer changes |
| `MouseAimPlayer.PlayerController.HandleInput` | Scripts/PlayerController.cs:39-54 | with a keyboard, moveInput becomes the key axes; without one it is unchanged |
| `MouseAimPlayer.PlayerController.FixedUpdate` | Scripts/PlayerController.cs:33-37 | while enabled, Move then RotateTowardsMouse; once disabled, nothing changes |
| `MouseAimPlayer.PlayerController.Move` | Scripts/PlayerController.cs:56-59 | the velocity becomes the smoothing step's result |
| `MouseAimPlayer.PlayerController.RotateTowardsMouse` | Scripts/PlayerController.cs:61-73 | the camera is re-fetched when missing; without a camera or a mouse the rotation is unchanged, otherwise it faces the mouse |
| `MouseAimPlayer.PlayerController.HandleDeath` | Scripts/PlayerController.cs:75-81 | the controller is disabled and the velocity zeroed |

## Left out

- HealthProtocol.Health.Die: raising `OnDeath` does not dispatch to the subscribed handlers. `deathListeners` records who subscribed, but no handler is run from `Die`, so a lethal hit leaves a subscribed player controller enabled in the model. Each controller's `HandleDeath` is modelled on its own, as what such a dispatch would run.
- Pellet direction: `ProjectileSpawn.rotation` carries the shotgun spread, but `Initialize` then sets `transform.up` to the handed direction for Linear and Accelerating pellets (CHARACTER/Scripts/EnemyProjectile.cs:98), and Uncontrolled pellets take a random heading. In the game only Tracking pellets keep the spread angle, so the 30-degree bound of `Volley` and `Shots` is about the spawn rotation, not about the direction every pellet flies.

- Floating point: all arithmetic is exact over reals, so rounding, NaN and `Vector2.normalized`'s tiny-vector cut-off are not modelled. The one infinity that matters, `1f / 0f` for the attack rate, is modelled as `NeverAgain`. Unity's `Vector2 ==` and `!=` compare within a tolerance (squared difference below 1e-10); the model compares exactly, in `Start`'s at-rest test (`IsAtRest`), `Initialize`'s zero-direction test and the spawner's zero-vector sentinel.
- `Vector2.SmoothDamp` in both controllers and the enemy: engine numerics with hidden state. Its target (enemy) or its result (players) is what the model carries.
- Angles: `Atan2`, `Rad2Deg`, quaternions, `transform.up` from a rotation, and `ScreenToWorldPoint`. Aim angles and headings are parameters. Turning the Uncontrolled projectile's rotation into a new `transform.up` is engine work, and the model does not link the two.
- Tracking steering geometry: the cross product is the parameter `crossZ`, and the model states only what `FixedUpdate` does with it.
- Vector normalisation: directions are taken as unit vectors. `moveInput` is kept as raw integer axes, because normalising keeps each component's sign and zero-ness.
- `Destroy(gameObject, lifetime)` in the projectile's `Start`: a delayed engine destruction with no logic of its own.
- `Physics2D.IgnoreCollision` in `Initialize` and the `isTrigger` setup in the projectile's `Awake`: collision-matrix plumbing.
- The dispatch of collision and trigger callbacks. `HandleHit` and `OnCollisionEnter2D` are modelled from the point they are called.
- `FindFirstObjectByType` lookups: each becomes a boolean (or object) constructor argument.
- Audio (`PlayOneShot` with a random clip) and `Debug.Log`: no effect on game state.
- The text widgets beyond their string values, and `CameraFollow.SetTarget`. The camera files are not part of this model.
- Player spawn position in `OnConfirm`: the player is placed at `spawnPoint` or, without one, at the origin (CHARACTER/Scripts/CharacterSelectManager.cs:94). `spawnedPlayers` records only which character was spawned, not where.
- Null references that would throw in C#: a null `characters` array, a null property list, an unassigned text widget or confirm button, a null `characterPrefab` in `OnConfirm`, and a null camera in `GetValidSpawnPosition`. The model assumes these are assigned.
- `projectileSpeed` and `spawnRateWeight` on the enemy: serialized but never read by the code.
- Unity's deferred destruction: `destroyed` records that destruction was requested. A destroyed object that is still called later in the same frame is not modelled.
