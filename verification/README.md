# Neon-Striker game core in Dafny

Neon-Striker is a browser first-person arena shooter. The player moves through a walled arena
with keyboard and mouse, or with on-screen joysticks on mobile. Robots of four kinds (basic,
scout, drone, tank) spawn at the walls and walk towards the player. Four weapons fire
hit-scan shots. Pick-ups heal, refill ammunition, speed the player up, raise a shield or
hand over a weapon. Kills raise the score and the level.

This project models the six services that hold the game's rules:

- the game service: run state, score, kills and level, the frame update, shooting and damage;
- the weapon service: per-weapon magazines, fire cooldown and reload;
- the enemy service: the enemy registry, attack cooldown, damage and death, and the spawn mix;
- the power-up service: pick-ups, their thirty-second lifetime, collection and timed effects;
- the physics service: the body registry, sub-stepping and the distance-based ray test;
- the input service: keys, mouse, pointer lock and the touch joysticks.

Modules:

- `Common` holds `Option` and 3-vectors.
- `Keyed` holds sequences with strictly increasing ids. These stand for the JavaScript `Map`s
  the services keep, keyed by fresh counters and iterated in insertion order.
- `Rays` holds the "nearest target along a ray" relation. Both the game's enemy scan and the
  physics ray test use it.
- `Rules` holds the game service's pure rules: level table, frame delta, pause toggle, damage
  absorption, kill tally and level-up, movement speed, pitch clamp, spawn positions and obstacles.
- `Physics`, `Enemies`, `PowerUps`, `Weapons`, `Input` and `Game` hold one class per service.
  Fields the source updates in place are class fields. Methods are proved against pure
  functions of the old state, and the properties are proved about those functions.

The host supplies the clock (`now`, in milliseconds), every random roll (`EnemyDraw`,
`DropDraw`, `PickupDraw`, `ObstacleDraw`) and sine, cosine and normalisation (`Trig`). All
of these are parameters.

## Model

| member | source | states |
|---|---|---|
| Keyed.Find | src/app/services/enemy.service.ts:650-652 | a lookup by id finds an entry with that id, and finds nothing exactly when the id is absent |
| Keyed.FindUnique | src/app/services/enemy.service.ts:650-652 | with increasing ids, looking up the id of a stored entry returns that very entry |
| Keyed.Without | src/app/services/enemy.service.ts:658-664 | deleting an id keeps exactly the entries with other ids and never grows the collection |
| Keyed.WithoutKeys | src/app/services/physics.service.ts:251-258 | after deletion the key set is the old one minus the id; deleting an absent id changes nothing |
| Keyed.WithoutIncreasing | src/app/services/physics.service.ts:251-258 | deletion keeps ids strictly increasing (insertion order is preserved) |
| Keyed.Replace | src/app/services/game.service.ts:552-586 | updating the object stored under an id changes only that slot, keeps every position's id, the key set and the id order |
| Keyed.FindAfterReplace | src/app/services/game.service.ts:552-586 | after an update, a lookup of that id sees the new value and every other lookup is unchanged |
| Keyed.AppendFresh | src/app/services/physics.service.ts:126-127 | adding an entry under a fresh, larger counter keeps ids increasing and adds exactly that key |
| Keyed.FindAppend | src/app/services/enemy.service.ts:111 | after appending under a fresh id, a lookup of that id finds the new entry and every other lookup is unchanged |
| Keyed.KeysCount | src/app/services/enemy.service.ts:650-664 | with increasing ids there are as many ids as entries |
| Keyed.KeysCons | src/app/services/enemy.service.ts:650-664 | the ids of a non-empty collection are its first id and those of the rest |
| Rays.EligibleWithin | src/app/services/game.service.ts:608-618 | a target is in range under the current closest distance exactly when it is in range at all and projects nearer than that distance |
| Rays.NearestUnique | src/app/services/game.service.ts:594-627 | the nearest eligible target (earliest on ties) is unique |
| Rays.NearestExtend | src/app/services/physics.service.ts:198-236 | scanning one more body keeps the current nearest unless the new body is eligible and strictly nearer, in which case it becomes the nearest |
| Rays.NoneExtend | src/app/services/physics.service.ts:198-236 | when nothing so far is eligible, one more body either leaves it so or becomes the nearest |
| Rays.NearestExists | src/app/services/game.service.ts:594-627 | as soon as one target is eligible, a nearest one exists |
| Rays.Nearest | src/app/services/game.service.ts:594-627 | the target the scan picks is absent exactly when none is eligible, and otherwise it is the nearest one |
| Rays.NearestIs | src/app/services/game.service.ts:594-627 | any index that is nearest is the one `Nearest` names |
| Rules.ConfigFor | src/app/services/game.service.ts:29-72 | the level table entry for an index is one of the three configurations, chosen by the index modulo 3, with arena size, spawn interval and enemy cap in range |
| Rules.LevelsEscalate | src/app/services/game.service.ts:29-72 | level configurations repeat every three levels; later levels have larger arenas, more obstacles, shorter spawn intervals and more enemies |
| Rules.FrameDelta | src/app/services/game.service.ts:374-376 | the frame delta is the elapsed time in seconds, capped at 0.1 s, and never negative when time moves forward |
| Rules.TogglePause | src/app/services/game.service.ts:778-790 | playing becomes paused and paused becomes playing; menu and game over are left alone |
| Rules.TogglePauseTwice | src/app/services/game.service.ts:778-790 | toggling pause twice returns to the same state |
| Rules.Resumed | src/app/services/game.service.ts:792-796 | resuming leaves no paused state; only a paused game becomes playing |
| Rules.Absorb | src/app/services/game.service.ts:737-763 | the shield takes damage first and breaks when the hit exceeds it; the player is hurt exactly when the damage gets through; health and shield never rise and never go below zero, and the total lost is the damage capped at what the player had |
| Rules.AbsorbExamples | src/app/services/game.service.ts:742-752 | a 50-point hit on a 30-point shield leaves 80 of 100 health and no shield; a 20-point hit on a 60-point shield leaves 40 shield and health untouched |
| Rules.Healed | src/app/services/game.service.ts:696-699 | healing adds the heal amount but never beyond maximum health, and never lowers health that is within the maximum |
| Rules.RecordKill | src/app/services/game.service.ts:661-674 | a kill adds its points and one kill; the level rises by one exactly when the level's kill count reaches the kills-per-level threshold, which then restarts |
| Rules.ScoreHit | src/app/services/game.service.ts:638-646 | a hit adds the 10-point bonus, plus the kill's points and level progress when the hit kills |
| Rules.LevelFromKills | src/app/services/game.service.ts:765-776 | after any sequence of kills, score, kills, level and the level's kill count are the closed forms of the total points and number of kills |
| Rules.MoveLength | src/app/services/game.service.ts:406-412 | the rotated move vector has the length of the pressed-key vector, and is non-zero exactly when the keys do not cancel out |
| Rules.MoveSpeed | src/app/services/game.service.ts:416-423 | speed starts at the base speed and is raised by sprint and by the speed boost, up to both multipliers combined |
| Rules.Stride | src/app/services/game.service.ts:411-443 | the movement speed reported to the weapon is the move speed while moving and zero otherwise |
| Rules.ClampPitch | src/app/services/game.service.ts:389-391 | pitch is clamped to the limit and left alone inside it |
| Rules.Difficulty | src/app/services/game.service.ts:509 | spawn difficulty is the level plus one per twenty kills |
| Rules.EnemySpawnPoint | src/app/services/game.service.ts:513-525 | enemies spawn three units inside one of the four walls, within the wall's span; drones at floor height, others one unit up |
| Rules.OffsetBound | src/app/services/game.service.ts:513-525 | a centred roll scaled by a span stays within half that span |
| Rules.ArenaSpot | src/app/services/game.service.ts:293-296 | obstacle and pick-up spots lie within three quarters of the usable arena |
| Rules.PickClearSpot | src/app/services/game.service.ts:291-297 | the drawn spot is the first draw that is clear of the arena centre |
| Rules.FirstClearIsFirst | src/app/services/game.service.ts:291-297 | a clear spot is found exactly when some draw is clear of the centre, and then it is the first such draw |
| Rules.ObstacleAt | src/app/services/game.service.ts:299-306 | an obstacle sits on the floor at its spot, with height and square width drawn from their ranges |
| Physics.StepCount | src/app/services/physics.service.ts:61-67 | a frame is simulated in one or two sub-steps |
| Physics.SubStepBound | src/app/services/physics.service.ts:61-67 | a sub-step never exceeds the frame, and frames up to 1/15 s give sub-steps of at most 1/30 s |
| Physics.EditedLookup | src/app/services/physics.service.ts:148-185 | setting a body's position or velocity, or pushing it, changes only that body and keeps ids and their order |
| Physics.WithoutFirst | src/app/services/physics.service.ts:251-258 | removing the first body leaves the rest in order |
| Physics.PhysicsWorld.constructor | src/app/services/physics.service.ts:13-19 | a new world has no bodies and is not initialized |
| Physics.PhysicsWorld.Initialize | src/app/services/physics.service.ts:25-59 | initialization marks the world ready and leaves the bodies alone |
| Physics.PhysicsWorld.Update | src/app/services/physics.service.ts:61-67 | an uninitialized world does nothing; otherwise the step count is that of the frame |
| Physics.PhysicsWorld.CreateBody | src/app/services/physics.service.ts:101-130 | a new body gets the next id, starts at rest at its position and is appended, so its id is new and ids stay increasing |
| Physics.PhysicsWorld.CreateBox | src/app/services/physics.service.ts:69-80 | a box body is created with its half extents |
| Physics.PhysicsWorld.CreateSphere | src/app/services/physics.service.ts:82-89 | a sphere body is created with its radius |
| Physics.PhysicsWorld.CreateCapsule | src/app/services/physics.service.ts:91-99 | a capsule body is created with its half height and radius |
| Physics.PhysicsWorld.BodyPosition | src/app/services/physics.service.ts:132-138 | a position is reported exactly for registered bodies, and it is that body's position |
| Physics.PhysicsWorld.LinearVelocity | src/app/services/physics.service.ts:169-175 | a velocity is reported exactly for registered bodies, and it is that body's velocity |
| Physics.PhysicsWorld.EditBody | src/app/services/physics.service.ts:148-185 | an edit applies to the body with that id, and to nothing if the id is unknown |
| Physics.PhysicsWorld.SetBodyPosition | src/app/services/physics.service.ts:148-157 | the body's position is replaced |
| Physics.PhysicsWorld.SetLinearVelocity | src/app/services/physics.service.ts:159-167 | the body's velocity is replaced |
| Physics.PhysicsWorld.AddImpulse | src/app/services/physics.service.ts:177-185 | the impulse is recorded on the body; velocity is unchanged, and pushing an unknown id changes nothing |
| Physics.PhysicsWorld.Raycast | src/app/services/physics.service.ts:187-249 | an uninitialized world reports a miss; otherwise a miss exactly when no body projects within range in front of the ray and within 1.5 of it, and a hit on the nearest such body (earliest on ties) with the foot point and distance along the ray |
| Physics.PhysicsWorld.RemoveBody | src/app/services/physics.service.ts:251-258 | the body is removed and its id leaves the key set; removing an unknown id does nothing |
| Physics.PhysicsWorld.Destroy | src/app/services/physics.service.ts:260-266 | all bodies are gone |
| Enemies.Stats | src/app/services/enemy.service.ts:29-75 | every enemy type has positive health, speed, damage, attack rate, points and scale |
| Enemies.Animated | src/app/services/enemy.service.ts:492-548 | animation advances the phase by time times speed; only a drone's height changes, to its hover height plus the bob |
| Enemies.CanAttackAfterCooldown | src/app/services/enemy.service.ts:639-643 | an enemy may attack exactly when its type's cooldown has passed since its last attack |
| Enemies.Attacked | src/app/services/enemy.service.ts:645-648 | an attack stamps the attack time and changes nothing else |
| Enemies.CanAttack | src/app/services/enemy.service.ts:639-643 | an enemy can never attack again at the instant of its last attack |
| Enemies.NoDoubleAttack | src/app/services/enemy.service.ts:639-648 | right after attacking, an enemy cannot attack again at the same moment |
| Enemies.Damaged | src/app/services/enemy.service.ts:550-551 | damage lowers health by the damage and keeps identity, stats and position |
| Enemies.AfterDamageLookup | src/app/services/enemy.service.ts:550-587 | after damage the target is gone if the hit was lethal and damaged otherwise; every other enemy is untouched and the registry stays well formed |
| Enemies.AfterDamage | src/app/services/enemy.service.ts:550-587 | damage never adds an enemy, damage to an unknown id changes nothing, and every other enemy left was there before |
| Enemies.AfterDamageSize | src/app/services/enemy.service.ts:550-587 | a lethal hit on a registered enemy removes exactly one enemy, and any other hit keeps the count |
| Enemies.RandomEnemyTypeInBand | src/app/services/enemy.service.ts:666-687 | a roll picks a type exactly when it falls in that type's band at the given difficulty |
| Enemies.RandomEnemyType | src/app/services/enemy.service.ts:666-687 | below difficulty 3 only basic and scout enemies spawn, and a roll under 0.2 always gives a basic enemy |
| Enemies.ChancesDistribution | src/app/services/enemy.service.ts:666-687 | the type chances form a distribution; tanks and drones appear only from difficulty 3; harder difficulty means more tanks and fewer basic robots |
| Enemies.HealthBarThresholds | src/app/services/enemy.service.ts:158-185 | the bar is green above 60% health and red at or below 30%, and the fraction is between 0 and 1 |
| Enemies.HealthBarMonotone | src/app/services/enemy.service.ts:158-185 | more health never makes the bar colour worse |
| Enemies.HealthBarColour | src/app/services/enemy.service.ts:158-185 | a full health bar is green and an empty one is red |
| Enemies.EnemyRegistry.constructor | src/app/services/enemy.service.ts:67-71 | a new registry is empty |
| Enemies.EnemyRegistry.GetEnemy | src/app/services/enemy.service.ts:650-652 | a lookup finds exactly the registered ids, and returns a well-formed enemy with that id |
| Enemies.EnemyRegistry.CreateEnemy | src/app/services/enemy.service.ts:82-115 | a new enemy gets the next id, full health and its type's stats, and is appended |
| Enemies.EnemyRegistry.Put | src/app/services/game.service.ts:552-586 | writing back an enemy replaces the entry with its id |
| Enemies.EnemyRegistry.SetPosition | src/app/services/game.service.ts:562 | the enemy's position is replaced |
| Enemies.EnemyRegistry.UpdateEnemy | src/app/services/enemy.service.ts:492-512 | the enemy is replaced by its animated self |
| Enemies.EnemyRegistry.Attack | src/app/services/enemy.service.ts:645-648 | the attack returns the type's damage and stamps the attack time |
| Enemies.EnemyRegistry.DamageEnemy | src/app/services/enemy.service.ts:550-587 | the returned enemy is the damaged one, the kill flag says its health fell to zero or below, and a killed enemy is removed |
| Enemies.EnemyRegistry.RemoveEnemy | src/app/services/enemy.service.ts:658-664 | the enemy with that id is removed |
| Enemies.EnemyRegistry.Destroy | src/app/services/enemy.service.ts:689-694 | the registry is emptied |
| PowerUps.ConfigOf | src/app/services/powerup.service.ts:24-65 | exactly speed and shield have a duration, and it is positive |
| PowerUps.Unexpired | src/app/services/powerup.service.ts:247-250 | update keeps exactly the pick-ups younger than thirty seconds |
| PowerUps.UnexpiredIncreasing | src/app/services/powerup.service.ts:229-251 | despawning keeps the pick-ups in their id order |
| PowerUps.FirstInReach | src/app/services/powerup.service.ts:261-285 | the loop finds the index `FirstReached` names |
| PowerUps.FirstReached | src/app/services/powerup.service.ts:261-285 | the index picked is within reach and no earlier pick-up is; none is picked exactly when none is within reach |
| PowerUps.Reached | src/app/services/powerup.service.ts:261-285 | the pick-up collected is a stored pick-up within reach; none is collected exactly when none is within reach |
| PowerUps.CollectionTakesOne | src/app/services/powerup.service.ts:229-285 | after expiry, collection removes exactly the pick-up `Reached` names, which was live and in reach, and every other live pick-up stays |
| PowerUps.PruneEffects | src/app/services/powerup.service.ts:253-258 | exactly the effects whose end time has not passed are kept, with their end times |
| PowerUps.EffectActiveIffTimeRemains | src/app/services/powerup.service.ts:315-325 | an effect is active exactly when it has time remaining, and pruning changes neither answer |
| PowerUps.EffectActive | src/app/services/powerup.service.ts:315-319 | an active effect survives pruning |
| PowerUps.EffectTimeRemaining | src/app/services/powerup.service.ts:321-325 | the remaining time is never negative and is zero for an absent or elapsed effect |
| PowerUps.PowerUpRegistry.IsEffectActive | src/app/services/powerup.service.ts:315-319 | an effect is active exactly when time remains on it |
| PowerUps.CollectedEffectLasts | src/app/services/powerup.service.ts:273-278 | collecting speed gives ten seconds and shield eight; types without a duration add no effect; other effects are unaffected |
| PowerUps.Cumulative | src/app/services/powerup.service.ts:327-342 | the cumulative weights are never negative |
| PowerUps.CumulativeShape | src/app/services/powerup.service.ts:327-342 | the cumulative weights rise strictly and reach one |
| PowerUps.RandomPowerUpType | src/app/services/powerup.service.ts:327-342 | a roll picks a type exactly when it falls in that type's cumulative band |
| PowerUps.TypeFromBand | src/app/services/powerup.service.ts:327-342 | a roll past the first cumulative weights lands in exactly one later band, and the type chosen is the one of that band |
| PowerUps.RolledBand | src/app/services/powerup.service.ts:327-342 | every roll picks the type whose cumulative band holds it, and only that one |
| PowerUps.PowerUpRegistry.constructor | src/app/services/powerup.service.ts:70-79 | a new registry has no pick-ups and no effects |
| PowerUps.PowerUpRegistry.SpawnPowerUp | src/app/services/powerup.service.ts:85-106 | a new pick-up gets the next id and the creation time and is appended |
| PowerUps.PowerUpRegistry.Update | src/app/services/powerup.service.ts:229-259 | expired pick-ups and elapsed effects are dropped |
| PowerUps.PowerUpRegistry.CheckCollection | src/app/services/powerup.service.ts:261-285 | the pick-up collected is the one `Reached` names; it is removed and its timed effect is set; with none in reach nothing changes |
| PowerUps.PowerUpRegistry.RemovePowerUp | src/app/services/powerup.service.ts:287-313 | the pick-up with that id is removed |
| PowerUps.PowerUpRegistry.Destroy | src/app/services/powerup.service.ts:348-355 | pick-ups and effects are cleared |
| Weapons.Stats | src/app/services/weapon.service.ts:19-98 | every weapon has positive damage, fire rate, capacity and reload time, non-negative spread and at least one pellet |
| Weapons.IndexOf | src/app/services/weapon.service.ts:417-429 | every weapon has a place in the cycle |
| Weapons.CycleInverse | src/app/services/weapon.service.ts:417-429 | next and previous weapon undo each other, four steps return to the start, and a step always changes weapon |
| Weapons.FullAmmo | src/app/services/weapon.service.ts:100-122 | every magazine starts full |
| Weapons.CanFire | src/app/services/weapon.service.ts:431-442 | a weapon that can fire is not reloading, has a round and was not fired at this instant |
| Weapons.ReloadStarted | src/app/services/weapon.service.ts:574-586 | a reload request keeps the weapon, the magazines and the fire time; a reload runs afterwards exactly when one was running or the magazine was not full |
| Weapons.Fired | src/app/services/weapon.service.ts:444-485 | firing keeps the current weapon and leaves every other magazine alone |
| Weapons.Tick | src/app/services/weapon.service.ts:588-681 | a tick keeps the weapon and the fire time and leaves every other magazine alone |
| Weapons.Equip | src/app/services/weapon.service.ts:400-415 | equipping switches weapon exactly when the models are loaded and keeps magazines, reload and fire time |
| Weapons.DisplayedOnEquip | src/app/services/weapon.service.ts:400-415 | the display on equip is the stored count or the capacity |
| Weapons.SoundPreserved | src/app/services/weapon.service.ts:444-681 | firing, reloading, ticking and equipping keep every magazine between empty and full |
| Weapons.InitialSound | src/app/services/weapon.service.ts:100-122 | the initial arsenal is sound and the pistol can fire once its cooldown has passed |
| Weapons.FireSpendsOneRound | src/app/services/weapon.service.ts:444-454 | a shot that cannot fire changes nothing; one that fires spends one round of the current weapon only and stamps the time |
| Weapons.CooldownElapsed | src/app/services/weapon.service.ts:431-442 | the fire-rate test in seconds is the same as waiting the cooldown in milliseconds |
| Weapons.NoShotWithinCooldown | src/app/services/weapon.service.ts:431-454 | after a shot no shot is possible within the cooldown, and one is possible after it while rounds remain |
| Weapons.LastRoundStartsReload | src/app/services/weapon.service.ts:444-482 | spending the last round empties the magazine and starts a reload, so no further shot is possible |
| Weapons.DisplayedOnEquipBounds | src/app/services/weapon.service.ts:400-415 | on equip the display shows the stored count, or the capacity when the magazine is empty |
| Weapons.TickAllAppend | src/app/services/weapon.service.ts:588-681 | ticking through frames one more frame is one more tick |
| Weapons.ReloadInProgress | src/app/services/weapon.service.ts:612-618 | while the summed time is under the reload time, reload progress is that time over the reload time |
| Weapons.ReloadCompletes | src/app/services/weapon.service.ts:612-652 | a reload stays in progress until its reload time has passed and then refills the magazine and stops |
| Weapons.IdleTicks | src/app/services/weapon.service.ts:588-618 | ticking without a reload changes nothing |
| Weapons.Pellets | src/app/services/weapon.service.ts:463-474 | a shot has one pellet per bullet, each with the weapon's damage, spread only when the weapon has spread |
| Weapons.WeaponSystem.constructor | src/app/services/weapon.service.ts:100-122 | a new weapon system holds the pistol and shows twelve rounds |
| Weapons.WeaponSystem.Initialize | src/app/services/weapon.service.ts:100-122 | initialization fills every magazine and equips the pistol |
| Weapons.WeaponSystem.EquipWeapon | src/app/services/weapon.service.ts:400-415 | equipping follows the equip rule and updates the display only once models are loaded |
| Weapons.WeaponSystem.NextWeapon | src/app/services/weapon.service.ts:417-422 | the next weapon in the cycle is equipped |
| Weapons.WeaponSystem.PreviousWeapon | src/app/services/weapon.service.ts:424-429 | the previous weapon in the cycle is equipped |
| Weapons.WeaponSystem.StartReload | src/app/services/weapon.service.ts:574-586 | a reload starts unless one is running or the magazine is full |
| Weapons.WeaponSystem.Fire | src/app/services/weapon.service.ts:444-485 | the weapon fires exactly when it can, spends a round, shows the remaining count, yields one shot per pellet and reloads on empty; each shot goes along its pellet direction when the weapon spreads and along the camera direction otherwise |
| Weapons.WeaponSystem.CanFireNow | src/app/services/weapon.service.ts:431-442 | the system can fire only off reload, with a round in the current weapon, and not at the instant of its last shot |
| Weapons.WeaponSystem.Spend | src/app/services/weapon.service.ts:450-454 | one round is spent and the time stamped |
| Weapons.WeaponSystem.Update | src/app/services/weapon.service.ts:588-681 | a frame advances the reload; the display is refilled exactly when a reload completes |
| Weapons.WeaponSystem.Destroy | src/app/services/weapon.service.ts:746-756 | models are unloaded and the ammunition kept |
| Input.SteerDeadzone | src/app/services/input.service.ts:429-445 | the move stick adds directions only beyond its 10-pixel dead zone, never removes a pressed key, and alone never sets opposite directions |
| Input.Steer | src/app/services/input.service.ts:429-445 | a released joystick adds nothing to the keys |
| Input.FindTouch | src/app/services/input.service.ts:302-304 | the touch found is the first with the stick's identifier, and none is found exactly when none has it |
| Input.InputDevice.constructor | src/app/services/input.service.ts:31-52 | a new device has nothing pressed, no pointer lock and both sticks released |
| Input.InputDevice.Initialize | src/app/services/input.service.ts:54-85 | initialization attaches the canvas and records whether the device is mobile |
| Input.InputDevice.GetState | src/app/services/input.service.ts:429-468 | the state read is the current one, and the mouse deltas are reset |
| Input.InputDevice.OnKeyDown | src/app/services/input.service.ts:360-370 | the key is held, and Escape asks for pause |
| Input.InputDevice.OnKeyUp | src/app/services/input.service.ts:372-374 | the key is released |
| Input.InputDevice.OnMouseDown | src/app/services/input.service.ts:376-382 | the button is held, and the left button shoots only under pointer lock |
| Input.InputDevice.OnMouseUp | src/app/services/input.service.ts:384-386 | the button is released |
| Input.InputDevice.OnMouseMove | src/app/services/input.service.ts:388-395 | movement accumulates into the deltas only under pointer lock; the cursor position is recorded |
| Input.InputDevice.RequestPointerLock | src/app/services/input.service.ts:409-413 | lock is requested only with a canvas, off mobile and when not already locked |
| Input.InputDevice.OnPointerLockChange | src/app/services/input.service.ts:415-423 | the lock flag follows the browser, and losing the lock on desktop asks for pause |
| Input.InputDevice.IsLocked | src/app/services/input.service.ts:470-472 | a mobile device always counts as locked; otherwise it is locked exactly when the pointer is |
| Input.InputDevice.ShootButtonDown | src/app/services/input.service.ts:239-243 | the touch fire button holds shoot and fires |
| Input.InputDevice.ShootButtonUp | src/app/services/input.service.ts:244-247 | the touch fire button releases shoot |
| Input.InputDevice.JumpButton | src/app/services/input.service.ts:249-257 | the touch jump button holds or releases Space |
| Input.InputDevice.SetStick | src/app/services/input.service.ts:286-293 | only the chosen stick changes |
| Input.InputDevice.JoystickStart | src/app/services/input.service.ts:283-294 | the stick becomes active at the first changed touch, with that touch's identifier |
| Input.InputDevice.JoystickMove | src/app/services/input.service.ts:296-337 | an active stick follows the first changed touch with its identifier; the look stick adds twice the movement to the deltas |
| Input.InputDevice.JoystickEnd | src/app/services/input.service.ts:339-358 | the stick is released when one of the changed touches is its own |
| Input.InputDevice.Destroy | src/app/services/input.service.ts:490-499 | keys and buttons are cleared |
| Game.ReplaceIndexed | src/app/services/game.service.ts:533-534 | updating an enemy keeps every enemy's body registered in the body map |
| Game.SelectTarget | src/app/services/game.service.ts:594-627 | the shot selects no enemy exactly when none is in front, within range and inside its scaled radius; otherwise it selects the nearest such enemy, the earliest on ties, and that is the index `Nearest` names |
| Game.ShotOutcomeKeeps | src/app/services/game.service.ts:594-692 | a shot keeps the enemy ids increasing and every enemy alive with its type stats; each kill removes exactly one enemy; the score rises exactly when some enemy was eligible, and never falls; the pick-ups on the floor stay, and at most one is added, only by a kill |
| Game.StruckOutcome | src/app/services/game.service.ts:634-692 | a hit leaves the enemies as damage says, scores the hit bonus plus the kill when lethal, and adds at most one pick-up, only when lethal, keeping the ones on the floor |
| Game.VolleyKeeps | src/app/services/weapon.service.ts:463-474 | over all the shots of a pull the registry stays sound; the kills gained equal the enemies removed; score and kills never fall; the pick-ups on the floor stay, and no more are added than there were kills |
| Game.VolleyStep | src/app/services/game.service.ts:153-155 | handling one more shot of the pull is one more `ShotOutcome` on the field the earlier shots left, with that shot direction, damage and drop draws |
| Game.Armament | src/app/services/game.service.ts:714-732 | exactly the three weapon pick-ups name a weapon |
| Game.PickedUp | src/app/services/game.service.ts:694-735 | only the health pick-up changes health and only the shield pick-up changes shield; a shield pick-up sets the full 50; healing adds 50 when there is room; from in-range vitals neither falls nor leaves its range |
| Game.Rearmed | src/app/services/game.service.ts:694-735 | no pick-up touches magazines or the fire clock; a weapon pick-up equips its weapon once models are loaded; ammo starts a reload exactly when the magazine is not full and none is running; other pick-ups change nothing |
| Game.Heading | src/app/services/game.service.ts:571-578 | a chased body keeps its id and position; its velocity takes the given horizontal pace and keeps its vertical part |
| Game.ChasedLookup | src/app/services/game.service.ts:571-578 | a chase changes the chased body alone, and only its velocity; ids stay increasing and the key set is kept |
| Game.Placed | src/app/services/game.service.ts:562-563 | the placed enemy keeps its id, type, body, health and stats and stands at the body horizontal position |
| Game.ConfrontedKeeps | src/app/services/game.service.ts:566-585 | the end of a turn keeps the battle sound and its ids, never raises health or shield, and changes no other enemy |
| Game.ConfrontedOutcome | src/app/services/game.service.ts:566-585 | the enemy is stamped as having attacked exactly when it strikes; its body heads for the player exactly when farther than 1; the vitals absorb its type damage exactly when it strikes |
| Game.ConfrontedBodies | src/app/services/game.service.ts:571-578 | the bodies after a turn end are the chased ones beyond distance 1 and unchanged otherwise |
| Game.PlacedAllLookup | src/app/services/game.service.ts:562-563 | after placing and animating, the enemy id holds the placed enemy and every other id is unchanged |
| Game.PlacedAllSound | src/app/services/game.service.ts:562-563 | placing and animating keeps the battle sound, its ids and its vitals |
| Game.TurnKeeps | src/app/services/game.service.ts:557-585 | a turn keeps the battle sound and its ids, never raises health or shield, and changes no other enemy |
| Game.TurnBodies | src/app/services/game.service.ts:566-578 | the bodies after a turn differ only by the chase of the enemy own body |
| Game.EnemyTurnIs | src/app/services/game.service.ts:557-559 | an enemy that is found with a body takes the full turn |
| Game.EnemyTurnKeeps | src/app/services/game.service.ts:557-585 | any enemy turn keeps the battle sound and its ids, never raises health or shield, and changes no other enemy |
| Game.EnemyTurnOutcome | src/app/services/game.service.ts:557-585 | after its turn the enemy is placed, animated and stamped when it strikes; its body heads for the player beyond distance 1; the vitals absorb its damage exactly when it strikes |
| Game.EnemyTurnsKeep | src/app/services/game.service.ts:557-586 | any run of turns keeps the battle sound and its ids, never raises health or shield, and leaves unlisted enemies unchanged |
| Game.EnemyTurnsStep | src/app/services/game.service.ts:557-586 | one more enemy in the run is one more `EnemyTurn` |
| Game.EnemyTurnsAppend | src/app/services/game.service.ts:557-586 | taking turns in two runs is taking them in one |
| Game.EnemyTurnsSplit | src/app/services/game.service.ts:557-586 | the run over all enemies is the turns before an enemy, its own turn, then the turns after it |
| Game.ChasedStationary | src/app/services/game.service.ts:571-578 | a chase moves no body |
| Game.EnemyTurnStationary | src/app/services/game.service.ts:557-585 | no enemy turn moves a body |
| Game.EnemyTurnsStationary | src/app/services/game.service.ts:557-586 | no run of turns moves a body |
| Game.FoughtAnimates | src/app/services/game.service.ts:552-586 | with the player position known, every enemy whose body exists ends placed at its body position and animated, and stamped as having attacked exactly when it struck |
| Game.Ids | src/app/services/game.service.ts:557 | the turn order lists every enemy id in registry order |
| Game.ReplaceWellFormed | src/app/services/game.service.ts:562-563 | writing back a live enemy under its id keeps every enemy live |
| Game.Steered | src/app/services/game.service.ts:411-443 | moving sets horizontal velocity along the heading at the given speed; standing still damps it to 90%; vertical velocity is kept |
| Game.MovedKeeps | src/app/services/game.service.ts:425-442 | steering the player velocity keeps the body ids and their order, changes no other body and does not move the player |
| Game.LeaptKeeps | src/app/services/game.service.ts:446-452 | a jump keeps the body ids and their order, changes no other body and does not move the player |
| Game.ManeuveredStationary | src/app/services/game.service.ts:397-452 | the player half of a frame touches the player body alone and never a position: ids stay in order, every other body is as it was |
| Game.Recruit | src/app/services/game.service.ts:504-525 | a recruit carries the given ids, the type drawn at the difficulty, full positive health and that type stats, and stands at the wall spawn point |
| Game.ReinforcedSound | src/app/services/game.service.ts:527-535 | a newcomer under ids above all registered ones keeps the battle sound: it is found under its id with its box under its body id, and every other lookup is as before |
| Game.Supply | src/app/services/game.service.ts:537-550 | a supplied pick-up carries the given id, the rolled type and the time, and lies on the floor at the first drawn spot clear of the centre |
| Game.GameSession.constructor | src/app/services/game.service.ts:77-112 | a new session is in the menu with zero score and kills, level one, full health and no shield |
| Game.GameSession.Initialize | src/app/services/game.service.ts:131-168 | initialization readies the services, adds the floor, four walls, obstacles clear of the centre and the player capsule, and marks the session initialized |
| Game.GameSession.LoadServices | src/app/services/game.service.ts:131-143 | physics, input and weapons are initialized without creating bodies |
| Game.GameSession.CreatePlayer | src/app/services/game.service.ts:320-327 | the player is a dynamic capsule at the start position |
| Game.GameSession.CreateLevel | src/app/services/game.service.ts:188-217 | a level adds five static arena bodies followed by its obstacles, all clear of the centre |
| Game.GameSession.CreateArena | src/app/services/game.service.ts:200-213 | the floor and four walls are added as static bodies, the floor first |
| Game.GameSession.CreateWall | src/app/services/game.service.ts:282-285 | a wall is a static box |
| Game.GameSession.CreateObstacles | src/app/services/game.service.ts:287-318 | one static obstacle per draw is added, each clear of the centre |
| Game.GameSession.Start | src/app/services/game.service.ts:329-367 | starting an initialized session resets the counters, clears enemies and pick-ups, puts the player at rest at the start, equips the pistol and plays; otherwise nothing happens |
| Game.GameSession.ResetRun | src/app/services/game.service.ts:333-360 | the counters and timers are reset and the state is playing |
| Game.GameSession.ResetCounters | src/app/services/game.service.ts:333-341 | score, kills, level, health, shield, wave and look angles take their starting values |
| Game.GameSession.ClearTally | src/app/services/game.service.ts:333-337 | score, kills, level and the level's kills take their starting values |
| Game.GameSession.ClearArena | src/app/services/game.service.ts:344-348 | no enemies, pick-ups or effects remain |
| Game.GameSession.ResetPlayer | src/app/services/game.service.ts:351-352 | the player body is moved to the start and stopped |
| Game.GameSession.Arm | src/app/services/game.service.ts:355 | the weapon is equipped by the equip rule |
| Game.GameSession.Restart | src/app/services/game.service.ts:805-807 | restart is start |
| Game.GameSession.GameLoop | src/app/services/game.service.ts:369-382 | outside play a frame changes nothing at all; in play it stamps the time, the session ends as `Played` says for the capped frame delta, the level configuration and the next ids, the score, kills and level are kept, and the game is over exactly when health is zero |
| Game.GameSession.Update | src/app/services/game.service.ts:384-502 | the session ends as `Played` says: `Steering`, then `Populated` from the player position before the step; the game is playing exactly when health remains and over exactly when it is gone |
| Game.GameSession.EndIfDead | src/app/services/game.service.ts:498-501 | the run ends exactly when health has run out, and nothing else in the session changes |
| Game.GameSession.EndRun | src/app/services/game.service.ts:798-803 | with no health left the state becomes game over and health is zero |
| Game.GameSession.Steer | src/app/services/game.service.ts:385-470 | the session ends as `Steering` says: look angles follow the mouse deltas with pitch clamped and the deltas consumed, the speed is the stride, the player body is steered and may jump, the weapons tick by the frame; the position returned is the player position before the step, which steering never moves; no id is used up |
| Game.GameSession.Maneuver | src/app/services/game.service.ts:397-452 | the movement speed is the stride and the bodies end as `Maneuvered` says, the player standing where it stood; nothing else in the session changes |
| Game.GameSession.Populate | src/app/services/game.service.ts:473-496 | the session, the battle after spawning, the pick-ups after spawning and the pick-up collected are those `Populated` names: the spawn timers as `Arrived` says, then the enemy turn, expiry and collection as `Engaged` says |
| Game.GameSession.Arrive | src/app/services/game.service.ts:473-485 | an enemy `Recruit`ed under the next ids joins on its own box exactly when the enemy timer reaches the level interval under the enemy cap, and that timer then restarts; a `Supply` pick-up under the next id joins exactly when the 15-second timer is due, which then restarts; the session ends as `Arrived` says, so nothing else changes |
| Game.GameSession.Engage | src/app/services/game.service.ts:487-496 | the enemies and bodies end as `Fought` says; pick-ups and effects expire; with the player position known, the pick-up `Reached` within 1.5 among the live ones is collected, removed and its timed effect set, and it applies `PickedUp` to the fought vitals and `Rearmed` to the weapons; the session ends as `Engaged` says |
| Game.GameSession.Look | src/app/services/game.service.ts:385-391 | the input state is read, yaw and pitch follow its mouse deltas scaled by the sensitivity, pitch clamped, the deltas are consumed and nothing else in the session changes |
| Game.GameSession.Advance | src/app/services/game.service.ts:460-470 | the physics step runs, the player position is read, the weapons tick by the frame and the mouse deltas are consumed; nothing else in the session changes |
| Game.GameSession.SpawnEnemyOnTimer | src/app/services/game.service.ts:473-478 | the enemy timer advances by the frame; exactly when it reaches the level interval with room under the enemy cap, the `Recruit`ed enemy under the next enemy and body ids joins after the old ones on its own box, its body maps to it, and the timer restarts; nothing else in the session changes |
| Game.GameSession.SpawnPowerUpOnTimer | src/app/services/game.service.ts:480-485 | the pick-up timer advances by the frame; exactly when it reaches 15 seconds, the `Supply` pick-up under the next id joins the field and the timer restarts; effects, enemies and bodies are untouched |
| Game.GameSession.CollectPowerUps | src/app/services/game.service.ts:487-496 | pick-ups older than thirty seconds expire and elapsed effects are dropped; with the player position known, the pick-up `Reached` within 1.5 among the live ones is collected, removed, its timed effect set, and its effect applied through `PickedUp` and `Rearmed`; otherwise only expiry happens; health and shield never fall; the enemies and bodies are untouched |
| Game.GameSession.Collect | src/app/services/game.service.ts:493-496 | the pick-up collected is the one `Reached` within 1.5; it is removed, its timed effect set, and it applies `PickedUp` to the vitals and `Rearmed` to the weapons; with none in reach nothing changes |
| Game.GameSession.MovePlayer | src/app/services/game.service.ts:397-443 | the movement speed is the stride, and only the player body changes: its velocity is steered by the keys as `Moved` says |
| Game.GameSession.SetPlayerVelocity | src/app/services/game.service.ts:425-442 | the player's velocity is replaced |
| Game.GameSession.Jump | src/app/services/game.service.ts:446-452 | only the player body changes: an upward impulse of 8 is recorded exactly when the player is near the floor and not rising, as `Leapt` says |
| Game.GameSession.SpawnEnemy | src/app/services/game.service.ts:504-535 | the `Recruit`ed enemy gets the next enemy and body ids, the type drawn at the current difficulty, full health and a wall spawn point; it joins after the old enemies on its own dynamic box, as `Reinforced` says, and its body maps to it |
| Game.GameSession.SpawnPowerUp | src/app/services/game.service.ts:537-550 | the `Supply` pick-up gets the next id, the type whose cumulative band holds the roll, the creation time and the first drawn floor spot clear of the centre, and is appended; effects are untouched |
| Game.GameSession.UpdateEnemies | src/app/services/game.service.ts:552-586 | without the player position nothing changes; otherwise every enemy registered at the start takes its turn in order, as `Fought` says; no enemy is added or removed, and health and shield never rise |
| Game.GameSession.ActEnemy | src/app/services/game.service.ts:557-585 | an enemy that is found and whose body has a position takes the turn `EnemyTurn` describes; otherwise nothing changes |
| Game.GameSession.TakeTurn | src/app/services/game.service.ts:562-585 | a registered enemy standing on its body takes the turn `Turn` describes |
| Game.GameSession.Confront | src/app/services/game.service.ts:566-585 | beyond distance 1 the enemy body heads for the player at the enemy speed; within 1.5 and off cooldown the enemy attacks and its damage goes through the shield, as `Confronted` says |
| Game.GameSession.PlaceEnemy | src/app/services/game.service.ts:562-563 | the enemy takes its body position and is then animated, as `Placed` says, and is written back under its id |
| Game.GameSession.Reposition | src/app/services/game.service.ts:562 | the enemy position is replaced by its body position under its id |
| Game.GameSession.Animate | src/app/services/game.service.ts:563 | the enemy is replaced by its animated self under its id |
| Game.GameSession.Chase | src/app/services/game.service.ts:571-578 | the bodies change as `Chased` says: only that body horizontal velocity is set, and its vertical velocity is kept |
| Game.GameSession.Strike | src/app/services/game.service.ts:581-584 | an attack deals the type's damage through the shield and stamps the attack time |
| Game.GameSession.DamagePlayer | src/app/services/game.service.ts:737-763 | damage is absorbed by the shield first, then health |
| Game.GameSession.HandlePowerUpCollected | src/app/services/game.service.ts:694-735 | health and shield change as `PickedUp` says and the weapons as `Rearmed` says; nothing else in the session changes |
| Game.GameSession.Rearm | src/app/services/game.service.ts:703-733 | the weapons change as `Rearmed` says and nothing else in the session changes |
| Game.GameSession.AddHitBonus | src/app/services/game.service.ts:644-646 | a hit adds the 10-point bonus |
| Game.GameSession.OnShoot | src/app/services/game.service.ts:170-186 | a shot fires exactly when playing and the weapon can fire, and spends a round as `Fired` says; an empty click exactly when playing, unable to fire and out of rounds; the shots are one per pellet with the weapon damage, along the pellet direction when the weapon spreads and the camera direction otherwise; enemies, kill counters, bodies, body map and pick-ups end as the `Volley` of those shots; without a shot nothing changes |
| Game.GameSession.HandleShots | src/app/services/game.service.ts:153-155 | every shot of a trigger pull goes through `handleWeaponFire` in order: enemies, kill counters, bodies, body map and pick-ups end as the `Volley` of the shots; score and kills never fall and no enemy is added |
| Game.GameSession.HandleWeaponFire | src/app/services/game.service.ts:588-659 | no enemy is targeted exactly when none is in front, in range and inside its scaled radius; otherwise the nearest one is hit, damaged and scored, with the impact at its foot point on the ray; a miss changes nothing; enemies, kill counters, bodies, body map and pick-ups end as `ShotOutcome` says |
| Game.GameSession.HitEnemy | src/app/services/game.service.ts:634-646 | the enemy takes the damage; the score takes the 10-point bonus, plus the kill points and level progress when the hit is lethal, in which case the body is removed and a pick-up may drop, as `Struck` says |
| Game.GameSession.DamageEnemy | src/app/services/game.service.ts:638-643 | the enemy takes the damage; a lethal hit records the kill, removes the body and may drop a pick-up, as `Harmed` says; a non-lethal one changes nothing else |
| Game.GameSession.DamageTarget | src/app/services/game.service.ts:638 | the kill flag says the damage was lethal, and a killed enemy's body is no longer used by any enemy |
| Game.GameSession.HandleEnemyKilled | src/app/services/game.service.ts:661-692 | the victim body leaves physics and the body map and the kill is recorded with its points; exactly when the drop roll is under 0.2, one pick-up of the rolled type is appended on the floor below the victim, stamped with the time; the field ends as `Fallen` says |
| Game.GameSession.ForgetBody | src/app/services/game.service.ts:663-664 | the body is removed from physics and from the body map |
| Game.GameSession.CountKill | src/app/services/game.service.ts:667-674 | the kill is recorded with its points and level progress |
| Game.GameSession.DropPowerUp | src/app/services/game.service.ts:684-691 | one pick-up is appended under the next id at the given position and time, with the type whose cumulative band holds the roll; effects are untouched |
| Game.GameSession.TogglePause | src/app/services/game.service.ts:778-790 | the state toggles between playing and paused, and resuming stamps the time |
| Game.GameSession.Resume | src/app/services/game.service.ts:792-796 | a paused game plays again with the time stamped |
| Game.GameSession.ReturnToMenu | src/app/services/game.service.ts:809-813 | the state becomes menu |
| Game.GameSession.SwitchWeapon | src/app/services/game.service.ts:815-821 | the next or previous weapon in the cycle is equipped |
| Game.GameSession.Destroy | src/app/services/game.service.ts:823-832 | every service is torn down: no bodies, enemies, pick-ups, effects, keys or buttons remain |

## Left out

- Rendering, sound, UI overlays, meshes, particles, tracers, casings, weapon sway, bob and recoil are not modelled. The renderer and sound services are not part of this model.
- The Jolt dynamics are not modelled. Bodies move only through explicit position, velocity and impulse edits, and a physics step changes no body.
- Physics.PhysicsWorld.AddImpulse: the impulse is recorded on the body and never reaches its velocity, because the engine that would integrate it is not modelled. So a jump leaves the vertical velocity as it was, `Rules.CanJump` stays true, and the model can jump on every frame while Space is held, where the source jumps once and then rises.
- Floating point is modelled as exact reals. Sine, cosine, normalisation and square roots are not computed: sine, cosine and normalisation are host functions, and each `sqrt(d) < r` test is `r > 0 && d < r * r`.
- The camera origin and direction are parameters. So are the clock (`performance.now`) and every `Math.random` roll.
- Frame scheduling (`requestAnimationFrame`, `cancelAnimationFrame`) is not modelled; the host calls `GameLoop` once per frame. `start` and `togglePause` also run one synchronous frame immediately; that frame is left to the host's next call.
- Event subscriptions are direct calls. The source's `fire` emits its shots before starting the automatic reload, and the model fires first and then handles the shots. Handling a shot never touches the weapons, so the order makes no difference.
- `checkCollection` emits the collected event before removing the pick-up and setting its effect; the model collects first and then applies the pick-up. The handler does not read the pick-up registry or the effects, so the order makes no difference.
- The power-up `update` takes a frame delta but reads the clock; the model passes `now`. The pick-ups' bob and spin are not modelled.
- `enemyBodyMap` maps a body id to the enemy object; the model maps it to the enemy's id, since enemies are values.
- Enemy registry operations take an id and require it to be registered. The source passes live enemy objects and never looks them up; mutating a stale object is not modelled.
- Game.GameSession.Initialize: obstacle placement draws from a finite sequence of spots per obstacle and requires one of them to be clear of the centre. The source retries with fresh random numbers until it finds one.
- Game.GameSession.SpawnPowerUp: likewise requires a finite draw that contains a spot clear of the centre.
- Game.GameSession.GameLoop, Game.GameSession.Update, Game.GameSession.Populate, Game.GameSession.Arrive, Game.GameSession.SpawnPowerUpOnTimer and the functions `Arrived`, `Populated` and `Played` require that draw, with a roll in range, on every frame, even when the 15-second pick-up timer is not due and the draw goes unused. The host supplies a fresh draw each frame.
- Game.GameSession.Initialize: only level 0 is built. The source never calls `createLevel` with another index, and `levelUp` does not change `currentLevel`.
- The wave counter is reset by `start` and never changed anywhere else, so it is carried but states nothing further.
- Input.InputDevice.JoystickStart: requires at least one changed touch. A touch-start event always carries one, and the source reads the first touch unconditionally.
- Input.InputDevice.Initialize: mobile detection from the user agent and the on-screen controls are not modelled; whether the device is mobile is a parameter.
- `exitPointerLock`, `isMobileDevice`, `showMobileControls`, `getBodyRotation`, `getWeaponStats` and `getAllEnemies` are plain accessors or UI helpers and are not modelled separately. Enemies are read directly from the registry's sequence.
- The pause flag in the input state (Escape held) is carried in the key set but not read by the game loop, as in the source, which pauses on the key-down event.
