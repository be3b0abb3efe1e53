# A verified model of the FPS demo's simulation core

The browser FPS demo draws its world with three.js. Beneath the drawing sits a
small, sequential simulation, and this project models it in Dafny:

- **World** (`world.dfy`). The level's collider table: four boundary walls and
  six obstacles. Each is an axis-aligned box computed from a centre and a
  size. The table is fixed at construction and only read afterwards.
- **Player** (`player.dfy`). The first-person controller:
  - look angles with the pitch clamp;
  - key-driven walking and sprinting, and the jump edge-guard;
  - gravity and the ground clamp at eye height 2;
  - axis-separated push-out against every collider;
  - the weapon: clip and reserve, the shot cooldown, the timed reload, recoil decay;
  - the 100 ms shot record that `checkShootHit` consumes;
  - damage.
- **Enemy** (`enemy.dfy`). The three-state AI (idle, chasing, attacking),
  chosen each tick from the distance to the player. It also covers the attack
  guard and cooldown, the attack report `isAttacking`, health with the
  terminal dying flag, and respawn.
- **Game** (`game.dfy`). The game's tick:
  - the player updates first;
  - then every enemy, from the last index down to 0, updates, is tested
    against the shot (25 damage, and a kill worth 100 points when it is dying
    afterwards), and hurts the player by 10 if it reports an attack;
  - enemy spawning, the respawn callback and the enemy-list part of `destroy`
    are modelled too.

## How the model is built

**State in classes, specification in functions.** Every class of the source
(`World`, `Player`, `Enemy`, `Game`) is a Dafny class that keeps the same
simulation-state fields. The player's `rotation` becomes `yaw` and `pitch`.
Configuration values such as `moveSpeed`, `maxAmmo`, `reloadTime` and
`attackRange` are module constants. Presentation and loop fields are left
out: camera, input manager, scene, meshes, HUD, renderer, `isRunning`,
`animationId` and `lastTime`. The methods update the kept fields in place,
step by step as the source does.
Each class also has a datatype snapshot of its state (`State()`, or
`Snapshot()` for the game). Each method is proved to leave the snapshot equal
to a pure function of the old snapshot, such as `Step`, `EnemyStep`,
`EnemyDamaged` or `GameTick`. The properties the program promises are then
proved about those functions, as their `ensures` clauses and as lemmas.

**Square roots and distances.** Coordinates and timers are exact reals. Square
roots are not computable on reals, so every function that normalises a vector
takes the square root as a parameter `sqrt`. The lemmas that need its meaning
assume `IsSquareRoot(sqrt)`. A comparison `distance < limit` becomes
`Within(d2, limit)` on the squared distance. `WithinMatchesDistance` proves
that this is the same comparison.

**The attack report.** `isAttacking` is true during the first 0.1 s after an
attack (the flag is set and the cooldown timer is above 1.4), not in the last
0.1 s before the cooldown ends. `ReportsAttack`, `AttackReportedOnTriggerTick`
and `AttacksOncePerStay` state that behaviour. The report does not look at
the dying flag, and a dying enemy's update changes nothing. An enemy killed
while its report is on therefore keeps reporting, and keeps costing the
player 10 health on every tick, until it respawns.
`KilledAttackerKeepsHurting` and `DyingAttackerHurtsEveryTick` state this.

## Model

| member | source | states |
|---|---|---|
| FpsGeometry.WithinMatchesDistance | components/fps/enemy.ts:70-79 | comparing squared distances decides `distanceTo(...) < limit` exactly, for a true square root |
| FpsWorld.BoxAround | components/fps/world.ts:85-90 | a collider is centre ∓ size/2: its extent is the size, its midpoint the centre, it is well formed for non-negative sizes, and its min.y is 0 when the centre's y is half the height |
| FpsWorld.Boxes | components/fps/world.ts:76-91 | one box per level entry, in the entries' order |
| FpsWorld.GroundedBoxes | components/fps/world.ts:118-123 | entries with non-negative sizes and centre y = height/2 give well-formed boxes standing on y = 0 |
| FpsWorld.LevelColliders | components/fps/world.ts:16-22 | the level has exactly 10 colliders, every one well formed with min.y = 0 |
| FpsWorld.LevelLayout | components/fps/world.ts:69-107 | the table holds the 4 walls first and then the 6 obstacles, each at its place in the source's lists |
| FpsWorld.BackWallBox | components/fps/world.ts:70 | the first collider is the back wall, from (-50, 0, -50.5) to (50, 5, -49.5) |
| FpsWorld.CreateWalls | components/fps/world.ts:65-92 | the loop appends the boxes of the walls, in order, to the table it is given |
| FpsWorld.CreateObstacles | components/fps/world.ts:97-125 | the loop appends the boxes of the obstacles, in order, to the table it is given |
| FpsWorld.World.constructor | components/fps/world.ts:16-22 | a new world's table is the level's 10 colliders (walls, then obstacles) |
| FpsWorld.World.GetColliders | components/fps/world.ts:130-132 | the getter returns the stored table, which is a constant no method can change |
| FpsPlayer.InitialPlayer | components/fps/player.ts:30-55 | a new player stands at (0, 5, 0) in the air with 100 health, 30 rounds and 90 in reserve, and satisfies the invariant |
| FpsPlayer.ClampPitch | components/fps/player.ts:80 | the clamp lands in [-π/2, π/2], keeps values already inside, and maps values beyond to the nearer bound |
| FpsPlayer.Rotate | components/fps/player.ts:73-81 | after any mouse motion the pitch lies in [-π/2, π/2]; it is the moved pitch (-0.002·dy) clamped to that range, so an overshoot stops at the nearer bound; yaw moves by -0.002·dx unclamped; nothing else changes |
| FpsPlayer.Steer | components/fps/player.ts:117-124 | the vertical velocity is kept; the horizontal velocity is zero when the keys cancel out, and otherwise lies along the key direction, pointing the same way for a non-negative speed |
| FpsPlayer.KeyDirectionIsHorizontal | components/fps/player.ts:90-111 | the movement keys only ever produce a horizontal direction |
| FpsPlayer.SteerKeepsSpeed | components/fps/player.ts:113-124 | when the keys select a direction, the horizontal speed is exactly 10, or 16 when sprinting, whatever the view |
| FpsPlayer.Jump | components/fps/player.ts:127-135 | a jump (vy = 8, leaves the ground, disarms) happens exactly when Space is held on the ground with the guard armed; otherwise velocity and grounding are kept; while Space is held without a jump the guard keeps its value, so a held key cannot jump twice; the guard re-arms only on a tick without Space |
| FpsPlayer.CollideOne | components/fps/player.ts:175-201 | push-out never changes y; a coordinate is left alone when it lies inside [min, max], outside both half-radius bands, or outside its gate (x gated on the old position, z on the position after the x push); a coordinate only ever moves onto a face ∓ 0.5; a gated coordinate in the band just outside a face lands on the band's edge |
| FpsPlayer.CollideAll | components/fps/player.ts:168-203 | resolving against the whole table keeps y, and each horizontal coordinate is unchanged or sits half a radius outside some collider's face |
| FpsPlayer.Move | components/fps/player.ts:86-143 | the movement handler keeps the height; the horizontal velocity is `Steer` of the keys and the view, and the vertical velocity and the ground and jump flags come from the jump guard; the new position is the old one advanced by velocity·dt horizontally and then resolved against every collider; nothing else changes |
| FpsPlayer.Shooting | components/fps/player.ts:208-215 | a round is spent exactly when the fire guard holds (button, cooldown over, not reloading, ammo > 0); a shot lowers ammo by exactly 1, adds 0.1 recoil, sets the cooldown to 0.15 and records the view and time; otherwise only the cooldown runs down |
| FpsPlayer.Fire | components/fps/player.ts:220-229 | `shoot` spends exactly one round, adds 0.1 recoil, records the view and the time, and changes nothing else |
| FpsPlayer.Reloading | components/fps/player.ts:262-283 | rounds only move between reserve and clip; a finished reload moves min(30 - ammo, reserve); a reload starts (timer 2 s) exactly when R is held, none runs, the clip is not full and the reserve is not empty; 0 ≤ ammo ≤ 30 and reserve ≥ 0 are kept |
| FpsPlayer.RecoilDecay | components/fps/player.ts:288-292 | recoil becomes max(0, recoil - 5·dt) when positive, never turns negative and never grows |
| FpsPlayer.Gravity | components/fps/player.ts:148-163 | with vy the vertical velocity after the airborne pull of -25·dt and y = old y + vy·dt: the player lands on y = 2 (grounded, velocity 0) exactly when y ≤ 2, and otherwise stands at y, airborne, with velocity vy; so y ≥ 2 always and grounded holds exactly at y = 2; x, z and the horizontal velocity are untouched |
| FpsPlayer.Step | components/fps/player.ts:60-68 | a whole tick keeps the player invariant (ammo and reserve bounds, reload timer, pitch, ground clamp), never changes health, raises recoil only by firing one round, and changes ammo + reserve by at most the round fired |
| FpsPlayer.HitTest | components/fps/player.ts:234-257 | no record: no hit; a record older than 100 ms is discarded without a hit; within the window the shot hits exactly when the ray passes within the radius of the target and the target is under 100 away; a hit discards the record, a miss inside the window keeps it |
| FpsPlayer.ShotHitsAtMostOnce | components/fps/player.ts:251-254 | once a shot has hit, no further test against any target can hit with it |
| FpsPlayer.PlayerDamaged | components/fps/player.ts:307-309 | health drops by the amount but never below 0, never rises above 100, and nothing else changes |
| FpsPlayer.ReloadFromEmpty | components/fps/player.ts:262-282 | an empty clip with 90 in reserve starts a 2 s reload and ends it with 30 in the clip and 60 in reserve |
| FpsPlayer.Player.constructor | components/fps/player.ts:47-55 | a new player object holds the initial state and is valid |
| FpsPlayer.Player.Update | components/fps/player.ts:60-68 | the handlers run in the source's order and the new state is `Step` of the old one, so the invariant is kept |
| FpsPlayer.Player.HandleRotation | components/fps/player.ts:73-81 | the fields change as `Rotate` says |
| FpsPlayer.Player.HandleMovement | components/fps/player.ts:86-143 | the fields change as `Move` says |
| FpsPlayer.Player.SetWalkVelocity | components/fps/player.ts:87-124 | the velocity becomes `Steer` of the key direction and speed |
| FpsPlayer.Player.TryJump | components/fps/player.ts:127-135 | the fields change as `Jump` says |
| FpsPlayer.Player.HandleCollisions | components/fps/player.ts:168-203 | the loop over the world's table leaves the position at `CollideAll` of the old one, and nothing else changes |
| FpsPlayer.Player.PushOutOf | components/fps/player.ts:175-201 | one pass of the loop body leaves the position at `CollideOne` of the old one |
| FpsPlayer.Player.HandleShooting | components/fps/player.ts:208-215 | the fields change as `Shooting` says |
| FpsPlayer.Player.Shoot | components/fps/player.ts:220-229 | one round spent, 0.1 recoil added, the view and time recorded |
| FpsPlayer.Player.CheckShootHit | components/fps/player.ts:234-257 | the result and the new record are those of `HitTest`, and no other field changes |
| FpsPlayer.Player.HandleReload | components/fps/player.ts:262-283 | the fields change as `Reloading` says |
| FpsPlayer.Player.HandleRecoil | components/fps/player.ts:288-292 | the fields change as `RecoilDecay` says |
| FpsPlayer.Player.ApplyGravity | components/fps/player.ts:148-163 | the fields change as `Gravity` says |
| FpsPlayer.Player.TakeDamage | components/fps/player.ts:307-309 | the fields change as `PlayerDamaged` says |
| FpsPlayer.Player.GetReloadProgress | components/fps/player.ts:330-332 | for a valid player, progress lies in [0, 1] and is below 1 exactly while a reload runs |
| FpsEnemy.SpawnPoint | components/fps/enemy.ts:31 | a spawn point has y = 1 and x, z in [-20, 20) |
| FpsEnemy.InitialEnemy | components/fps/enemy.ts:13-31 | a new enemy has 100 health, is alive and idle, with no cooldown and no attack pending, and satisfies the enemy invariant |
| FpsEnemy.ChooseState | components/fps/enemy.ts:73-79 | attacking exactly within 3, chasing exactly from 3 up to 30, idle exactly from 30 on |
| FpsEnemy.ChooseStateByDistance | components/fps/enemy.ts:70-79 | the same three-way choice, stated on the distance itself: the state is a function of distance alone |
| FpsEnemy.Chase | components/fps/enemy.ts:107-114 | a chase step changes only the position and never its y; the step is parallel to the horizontal offset from the enemy to the player and, for a true square root and a forward tick, points towards the player |
| FpsEnemy.ChaseStepLength | components/fps/enemy.ts:108-113 | a chase step covers exactly 4·dt horizontally when the player is not straight above or below |
| FpsEnemy.Attack | components/fps/enemy.ts:122-127 | an attack (flag set, cooldown 1.5) happens exactly when the cooldown is over and the flag is clear; otherwise nothing changes |
| FpsEnemy.CoolDown | components/fps/enemy.ts:96-98 | the cooldown runs down by dt only while positive, and never rises |
| FpsEnemy.ReportsAttack | components/fps/enemy.ts:132-137 | `isAttacking`: for an enemy satisfying the invariant, a report means the cooldown is in (1.4, 1.5], the first 0.1 s after an attack |
| FpsEnemy.EnemyStep | components/fps/enemy.ts:66-102 | a dying enemy is frozen; otherwise the state follows the distance; a chasing enemy moves exactly as `Chase` says and no other state moves; y, health and dying never change; chasing and idle clear the flag and only run the cooldown down; an attack sets the cooldown to 1.5 - dt (it runs down on the same tick); attacking without the guard keeps the flag and runs the cooldown down; the invariant is kept |
| FpsEnemy.AttackReportedOnTriggerTick | components/fps/enemy.ts:132-137 | on the tick an attack triggers, it is reported exactly when that tick is shorter than 0.1 s |
| FpsEnemy.AttacksOncePerStay | components/fps/enemy.ts:82-98 | while the player stays in range, an enemy that has attacked stays put, stays alive, keeps its flag, and never restarts its cooldown (it only runs down); it reports the attack exactly while less than 0.1 s of the cooldown has run |
| FpsEnemy.CooledDownStaysPut | components/fps/enemy.ts:122-127 | with the flag set and the cooldown over, an enemy in range keeps its cooldown, flag and position |
| FpsEnemy.EnemyDamaged | components/fps/enemy.ts:142-157 | ignored while dying; otherwise health drops by exactly the amount, with no clamp, and the enemy is dying exactly when health is at most 0 |
| FpsEnemy.Dying | components/fps/enemy.ts:162-165 | `die` sets the dying flag and nothing else; applied at health ≤ 0 it restores the enemy invariant |
| FpsEnemy.Respawned | components/fps/enemy.ts:170-176 | health 100, alive, y = 1, x and z in [-20, 20); AI state, cooldown and flag are left as they were |
| FpsEnemy.Enemy.constructor | components/fps/enemy.ts:26-36 | a new enemy object is linked to the given player and holds the initial state |
| FpsEnemy.Enemy.Update | components/fps/enemy.ts:66-102 | the fields change as `EnemyStep` says, against the player object's position, and a valid enemy stays valid |
| FpsEnemy.Enemy.ChasePlayer | components/fps/enemy.ts:107-117 | the fields change as `Chase` says |
| FpsEnemy.Enemy.AttackPlayer | components/fps/enemy.ts:122-127 | the fields change as `Attack` says |
| FpsEnemy.Enemy.IsAttacking | components/fps/enemy.ts:132-137 | the object's report is `ReportsAttack` of its state, so for a valid enemy it holds only while the cooldown is in (1.4, 1.5] |
| FpsEnemy.Enemy.TakeDamage | components/fps/enemy.ts:142-157 | the fields change as `EnemyDamaged` says, and a valid enemy stays valid under non-negative damage |
| FpsEnemy.Enemy.Die | components/fps/enemy.ts:162-165 | only the dying flag is set |
| FpsEnemy.Enemy.Respawn | components/fps/enemy.ts:170-176 | the fields change as `Respawned` says, and a valid enemy stays valid |
| FpsEnemy.Enemy.IsDead | components/fps/enemy.ts:181-183 | for a valid enemy, `isDead` holds exactly when health is 0 or below |
| FpsGame.ResolveEnemy | components/fps/game.ts:117-138 | one pass of the enemy loop keeps the number of enemies; what the passes do together is stated by `ShotHitsOneEnemyPerTick`, `OneKillPerTick` and `AttacksHurtPlayer` |
| FpsGame.EnemyTurn | components/fps/game.ts:117-138 | one turn costs the player 0 or 10 health (never below 0, never more), changes the enemy's health by 0 or -25 (never a dying enemy's), counts a kill only on an enemy left dying by a shot that was on record and is consumed, and touches nothing of the player but health and the record |
| FpsGame.ProcessEnemies | components/fps/game.ts:116-139 | the enemy loop keeps the number of enemies; its meaning is stated by the loop lemmas below |
| FpsGame.GameTick | components/fps/game.ts:111-143 | a tick keeps the number of enemies; its meaning is stated by the tick lemmas below |
| FpsGame.TurnShot | components/fps/game.ts:121-122 | a hit needs a shot on record and consumes it, and a turn never creates a record |
| FpsGame.TurnKeepsInvariants | components/fps/game.ts:117-138 | a turn keeps both the player's and the enemy's invariant |
| FpsGame.ProcessShape | components/fps/game.ts:116-139 | the loop leaves unvisited indices alone; every visited enemy ends as its update against the player's position left it, or that update shot once; the player keeps everything but health and the record |
| FpsGame.NoShotNoHit | components/fps/game.ts:121 | without a shot on record no enemy is hit, no kill or score is counted, and no record appears |
| FpsGame.ScoreFollowsKills | components/fps/game.ts:124-125 | score and kills change together, 100 points per kill |
| FpsGame.OneKillPerTick | components/fps/game.ts:121-126 | the loop adds exactly one kill when the shot's victim is dying after the loop and none otherwise; so at most one kill per tick, and a kill needs a shot on record and consumes it |
| FpsGame.ShotVictim | components/fps/game.ts:116-123 | the enemy the shot damages is one the loop visits |
| FpsGame.ShotVictimIsLastHit | components/fps/game.ts:116-123 | the enemy the shot damages is the one of highest index that the shot, as recorded at the start of the loop, hits; when it hits none, there is no victim |
| FpsGame.MissKeepsHits | components/fps/game.ts:118-122 | a turn whose enemy the shot misses leaves every other enemy's hit test unchanged |
| FpsGame.ShotHitsOneEnemyPerTick | components/fps/game.ts:116-123 | at most one enemy takes shot damage per tick: every enemy but the victim ends as its own update left it; the victim ends damaged by 25; a victim needs a shot on record, which is consumed |
| FpsGame.AttacksHurtPlayer | components/fps/game.ts:135-137 | the loop costs the player 10 health per enemy reporting an attack after its turn, and health never drops below 0 |
| FpsGame.ProcessKeepsInvariant | components/fps/game.ts:116-139 | the loop keeps the game invariant: the player and enemy invariants, score = 100·kills, kills ≥ 0 |
| FpsGame.TickKeepsInvariant | components/fps/game.ts:111-143 | a tick keeps the game invariant, in particular score = 100·kills, and adds at most one kill |
| FpsGame.PlayerMovesFirst | components/fps/game.ts:113-118 | every enemy ends the tick updated against the player's new position, and possibly shot: the player updates before any enemy |
| FpsGame.TickDamage | components/fps/game.ts:134-137 | over a tick the player loses 10 health per enemy reporting an attack, never dropping below 0 |
| FpsGame.KillCountedOnDyingEnemy | components/fps/game.ts:121-126 | a hit on an already-dying enemy still counts a kill and 100 points, while the damage itself is ignored |
| FpsGame.KilledAttackerKeepsHurting | components/fps/game.ts:121-137 | an enemy killed on a tick on which it reports an attack is dying, still reports the attack, and the kill is counted |
| FpsGame.DyingAttackerHurtsEveryTick | components/fps/game.ts:116-137 | a dying enemy that reports an attack is left unchanged by its turn and costs the player 10 health (never below 0); it therefore does the same on every later tick until it respawns |
| FpsGame.InitialEnemies | components/fps/game.ts:76-81 | spawning gives one enemy per draw, in order, each at its draw's spawn point |
| FpsGame.InitialGame | components/fps/game.ts:29-58 | a new game holds exactly the initial player and, in order, one initial enemy (full health, alive, idle) at each draw's spawn point; score and kills are 0; the game invariant holds |
| FpsGame.Game.constructor | components/fps/game.ts:29-58 | a new game object builds the level's colliders, a player and 5 enemies, holds `InitialGame` of the draws, and is valid |
| FpsGame.Game.SpawnEnemies | components/fps/game.ts:76-81 | the loop appends one new enemy per draw, spawned at that draw, and leaves score and kills alone |
| FpsGame.Game.AddEnemy | components/fps/game.ts:78-79 | one new enemy object is appended to the list, holding its initial state |
| FpsGame.Game.Update | components/fps/game.ts:111-143 | the new game state is `GameTick` of the old one, the enemy list is unchanged, and the game stays valid |
| FpsGame.Game.UpdatePlayer | components/fps/game.ts:113 | only the player changes, as `Step` says |
| FpsGame.Game.UpdateEnemies | components/fps/game.ts:116-139 | the reverse loop over the list leaves the game state at `ProcessEnemies` of the old one |
| FpsGame.Game.ResolveOne | components/fps/game.ts:117-138 | one pass of the loop body leaves the game state at `ResolveEnemy` of the old one |
| FpsGame.Game.PlayTurn | components/fps/game.ts:118-137 | the calls on the player and the enemy object produce exactly `EnemyTurn` of their old states |
| FpsGame.Game.RespawnEnemy | components/fps/game.ts:128-130 | the respawn callback changes only the respawned enemy, as `Respawned` says, and the game stays valid |
| FpsGame.Game.Destroy | components/fps/game.ts:178-179 | `destroy` empties the enemy list and leaves score and kills alone |

## Left out

- Rendering, scene building, lighting, the ground, meshes and materials are not modelled: they are presentation only. This includes the enemy mesh's `lookAt`, the hit flash in the enemy's `takeDamage`, `updateCameraPosition` and the renderer calls in `destroy`.
- The HUD (`components/fps/hud.ts`) and `app/page.tsx` are not part of this model. They are presentation and UI.
- The input manager is not part of this model. Its outputs for one tick (mouse motion, held keys, mouse button) are the `Input` value given to the player's tick.
- The camera is not modelled. Its world direction, which comes from trigonometry on yaw and pitch, is the `view` argument of the player's tick. The camera's position is taken to be the player's position, where `updateCameraPosition` puts it at the end of every tick.
- Square roots are a parameter `sqrt`. Lemmas that need their meaning assume `IsSquareRoot(sqrt)`. Distance comparisons use squared distances.
- Floating-point rounding is not modelled. Coordinates and timers are exact reals, and ammo, health, score and kills are unbounded integers.
- `performance.now()` is not modelled. The clock is a parameter `now`, and one value serves both the shot record and the hit tests of a tick. The tick length `dt` is a parameter, non-negative because the clock is monotonic; the `animate` loop, `start` and `requestAnimationFrame` are not modelled.
- `Math.random` is not modelled. Spawn points come from draws `(rx, rz)` in [0, 1) given by the caller.
- The 3-second `setTimeout` that schedules a respawn is not modelled. The respawn itself is `Game.RespawnEnemy`, an explicit call.
- `init`, `onWindowResize` and `render` are not modelled: they only touch the DOM and the renderer.
- `Player.destroy` and `Enemy.destroy` are not modelled: one does nothing, the other removes a mesh from the scene.
- FpsGame.Game.SpawnEnemies: states the new enemies' states and order, but not that their objects are fresh. `AddEnemy`, the single step, does state freshness.
- FpsGame.Game.Destroy: states only the enemy list and the score. The source's other clean-up is presentation.
