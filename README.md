# shmup — a verified model of the frame logic

This project models the gameplay core of the isometric SFML shooter "shmup". Each frame, the game does the following:

- It reads the player's keys into a velocity and fires player shots, limited by a cooldown.
- It moves every projectile in a straight line and drops those that leave the window by more than a 50-unit margin.
- It updates every enemy. An enemy either follows its waypoint path or wanders. Its firing pattern then appends shots to the shared projectile list. Dead enemies are erased.
- It resolves collisions:
  - a player shot damages the first enemy it overlaps and is used up;
  - an enemy shot overlapping the ship damages the ship and is used up;
  - every enemy touching the ship costs the ship and itself one hit point.
- It clamps the ship's position to the window. As written, the clamp's four tests all read a copy taken before the clamp, so y always ends in [15, 585] but x ends in [15, 785] only when x or y was already in range (see Findings). The model's Game uses the intended clamp, which keeps the ship on screen.
- It stops once the ship has no health left.

Alongside the frame logic, the project models the isometric conversions between world, screen and tile coordinates.

The model is organised as follows:

- Each source class whose fields change in place is a Dafny `class` with the same fields:
  - `Path`;
  - the three firing patterns;
  - `Projectile`, `Enemy` and `Ship`;
  - `Game`.
- Each state-changing method is proved against a pure function of the old state:
  - `Path.Update` against `Step`;
  - `Projectile.Update` against `Step`;
  - `Enemy.Update` against `Advance`;
  - each pattern's `Update` against `DirectShot`, `RadialShot` or `BeamShot`.
- The properties of the game are lemmas about those functions and contracts on them:
  - at most one waypoint transition per tick;
  - a looping path never finishes;
  - a finished path is frozen;
  - the beam pattern alternates preview and beam;
  - fire-rate limits;
  - first-hit-only damage;
  - no hit counted twice or lost.
- `Game` holds its projectile and enemy lists as sequences of values (`Shot`, `Foe`). Each erase-while-iterating loop is a `while` loop over such a sequence. Each loop is proved to compute a filter (`Keep`) of the updated list.

Modules and files:

| module | file | source |
|---|---|---|
| `Util` | util.dfy | helpers: filtering a list by a mask, and the erase-while-iterating loop step |
| `Geometry` | geometry.dfy | vectors, rectangles, overlap test, uninterpreted trigonometry and square root |
| `Health` | health.dfy | `takeDamage` of Enemy and Ship |
| `Animation` | animation.dfy | the six-frame animation counter of Enemy and Projectile |
| `Isometric` | isometric.dfy | src/IsometricUtils.cpp |
| `Waypoints` | path.dfy | src/Path.cpp |
| `Projectiles` | projectile.dfy | src/Projectile.cpp |
| `Patterns` | shooting_pattern.dfy | src/ShootingPattern.cpp |
| `Enemies` | enemy.dfy | src/Enemy.cpp |
| `Ships` | ship.dfy | src/Ship.cpp |
| `Shmup` | game.dfy | src/Game.cpp (`Game::update`, `Game::checkCollisions`) |

Constants come from the headers and sources:

- window 800 × 600 (include/Game.h:21-22);
- six animation frames in a 2 × 3 sheet (include/Enemy.h:30-32, include/Projectile.h:28-30);
- tiles 64 × 32 (include/IsometricUtils.h:12-13);
- ship radius 15, muzzle offset 30, off-screen margin 50, frame durations 0.05 and 0.08, and ship fire rate 0.15 with 20 hit points.

### Behaviour worth knowing

The model follows the code:

- Preview (telegraph) projectiles are not excluded from damage. Neither collision pass checks the preview flag (src/Game.cpp:552, 576).
- The firing beam is aimed afresh at the player when it fires. Its angle is not copied from the preview, although the comment at src/ShootingPattern.cpp:85 speaks of the aim computed at warning time (src/ShootingPattern.cpp:98-102).
- Projectiles expire only by leaving the screen or by hitting something. There is no lifetime countdown. Callers pass a lifetime (src/ShootingPattern.cpp:90 and 102, where the comment at :89 says the preview lasts for the warning duration), but no code in the modelled files stores or reads one (src/Projectile.cpp:22-24, include/Projectile.h:9). The model stores it and never reads it.
- The projectile loop runs before the enemy loop. Shots that enemies fire in a frame are therefore first moved in the next frame (src/Game.cpp:186-208).

## Model

| member | source | states |
|---|---|---|
| Animation.Tick | src/Projectile.cpp:74-83 | The frame stays in [0, 6). It advances by exactly one, wrapping after the last frame, exactly when the accumulated time reaches the frame duration. The timer restarts at 0 exactly then and otherwise accumulates. |
| Animation.Cell | src/Projectile.cpp:64-65 | The sprite-sheet cell of a frame has column < 2 and row < 3, and row · 2 + column is the frame. |
| Health.Damage | src/Enemy.cpp:161 | Health after damage is never negative: it is either health − damage or 0, and never below health − damage. |
| Health.DamageAccumulates | src/Ship.cpp:161-163 | From non-negative health, two hits of a and b cost the same as one hit of a + b. |
| Geometry.OverlapsSymmetric | src/Projectile.cpp:110-119 | The rectangle collision test is symmetric. |
| Geometry.SharedEdgeIsNoOverlap | src/Projectile.cpp:114-117 | Rectangles that only share an edge do not collide, because the comparisons are strict. |
| Geometry.PointsNeverOverlap | src/Projectile.cpp:103-108 | The zero-size boxes of sprite-less entities never collide, wherever they are. |
| Isometric.ScreenToWorld | src/IsometricUtils.cpp:4-17 | Projecting the result of screenToWorld with worldToScreen gives back the screen point. |
| Isometric.ScreenToWorldInvertsWorldToScreen | src/IsometricUtils.cpp:4-17 | screenToWorld(worldToScreen(x, y)) is (x, y). |
| Isometric.WorldToTile | src/IsometricUtils.cpp:19-24 | The world point lies in the half-open cell of the tile returned: tx·64 ≤ x < (tx+1)·64 and ty·32 ≤ y < (ty+1)·32. |
| Isometric.TileOfTileCentre | src/IsometricUtils.cpp:19-31 | worldToTile(tileToWorld(tx, ty)) is (tx, ty). |
| Waypoints.Start | src/Path.cpp:7-16 | A non-empty list starts on waypoint 0, aims at index 1 % n and is not finished. An empty list starts finished at the origin. The result keeps the running-path invariant. |
| Waypoints.Restart | src/Path.cpp:23-34 | setStart puts the follower at the given point. On a non-empty list it aims at index 0 and leaves `finished` alone. On an empty list it makes the path finished. The invariant is kept. |
| Waypoints.Rewind | src/Path.cpp:39-47 | reset makes `finished` equal to "no waypoints". A non-empty list returns exactly to the constructor's start state. An empty list keeps its position. |
| Waypoints.Step | src/Path.cpp:49-91 | One tick keeps the invariant (target index < n while running). A finished or empty path is unchanged. A looping path never changes `finished`. The index moves by at most one waypoint, wrapping to 0 only when looping. Finishing happens only by running past the last waypoint of a non-looping path. Any transition lands exactly on the old target, so no distance carries over. A running path whose target is reached (within the 1e-4 squared-distance threshold, or by a step at least as long as the distance) ends in exactly the state Arrive gives. Otherwise the tick only moves the position and changes nothing else. |
| Waypoints.Arrive | src/Path.cpp:57-70 | Arriving puts the follower exactly on its target. It aims at the next waypoint when there is one. At the end of a looping path it aims at waypoint 0 again; at the end of a non-looping path it latches `finished`. Waypoints, speed and loop flag are unchanged, and the result keeps the invariant. |
| Waypoints.TransitionExactlyOnArrival | src/Path.cpp:57-90 | On a running path (other than a looping path of one waypoint, whose arrival re-aims at the same index), a tick changes the target index or the finished flag if and only if the target is reached. |
| Waypoints.ShortStepShrinksDistance | src/Path.cpp:73-90 | When the step is shorter than the remaining distance, the target index is unchanged, the path keeps running, and the distance to the target shrinks by exactly speed·dt (stated on squares). |
| Waypoints.Run | src/Path.cpp:49-91 | Any number of ticks keeps the running-path invariant. |
| Waypoints.LoopingPathNeverFinishes | src/Path.cpp:61-87 | A running looping path is still running after any number of ticks. |
| Waypoints.FinishedPathIsFrozen | src/Path.cpp:50 | Once finished, any number of ticks changes nothing: position, index and flag stay put. |
| Waypoints.Path.Default | src/Path.cpp:4-5 | Path() has no waypoints, index 0, position at the origin, speed 100, loop on, and is finished. |
| Waypoints.Path.constructor | src/Path.cpp:7-16 | The constructor leaves exactly the state Start describes. |
| Waypoints.Path.SetWaypoints | src/Path.cpp:18-21 | setWaypoints replaces the list and rewinds it. |
| Waypoints.Path.SetStart | src/Path.cpp:23-34 | setStart leaves exactly the state Restart describes. |
| Waypoints.Path.SetSpeed | src/Path.cpp:36 | setSpeed changes only the speed. |
| Waypoints.Path.SetLoop | src/Path.cpp:37 | setLoop changes only the loop flag. |
| Waypoints.Path.Reset | src/Path.cpp:39-47 | reset leaves exactly the state Rewind describes. |
| Waypoints.Path.ArriveAtTarget | src/Path.cpp:59-69 | The arrival code leaves exactly the state Arrive describes: on the target, aimed at the next waypoint, wrapping when looping and latching `finished` otherwise. |
| Waypoints.Path.Update | src/Path.cpp:49-91 | update leaves exactly the state Step describes and keeps the invariant. |
| Patterns.DirectShot | src/ShootingPattern.cpp:12-25 | At most one shot per tick. It fires exactly when the player is in range (or `always` is set) and the timer has reached the fire rate. Firing restarts the timer and sends one plain enemy shot from the enemy, aimed at the player. Otherwise the time is counted, in range or not. |
| Patterns.OutOfRangeKeepsCounting | src/ShootingPattern.cpp:14-18 | While the player stays out of range, a non-`always` pattern fires nothing over any run of ticks, and its timer holds all the elapsed time. |
| Patterns.Burst | src/ShootingPattern.cpp:46-49 | A burst has exactly max(count, 0) shots. Shot i is a plain enemy shot from the enemy at angle 2π·i/count. |
| Patterns.BurstEvenlySpaced | src/ShootingPattern.cpp:46-47 | Burst angles start at 0, increase by exactly 2π/count, and stay below 2π. |
| Patterns.RadialShot | src/ShootingPattern.cpp:41-51 | When the interval is up, the timer restarts and the whole burst is fired. Otherwise nothing is fired and the time is counted. |
| Patterns.BeamShot | src/ShootingPattern.cpp:76-111 | At most one shot and one phase change per tick, always to the next phase of Idle→Warning→Firing→Idle. The phase changes exactly when its time is up, and the timer restarts at 0 exactly then. A shot comes exactly with entering Warning (a preview beam living `warning`) or Firing (a non-preview beam living `beamDur`, aimed afresh at the player). |
| Patterns.PreviewsAndBeamsAlternate | src/ShootingPattern.cpp:79-110 | Over any run of ticks every shot is a beam, and previews and firing beams strictly alternate, starting with a preview unless the run starts in Warning. |
| Patterns.DirectAtPlayerPattern.constructor | src/ShootingPattern.cpp:9-10 | The settings are stored and the timer starts at 0. |
| Patterns.DirectAtPlayerPattern.Update | src/ShootingPattern.cpp:12-25 | The new timer is DirectShot's. The projectile list only grows at its end, by fresh projectiles built from DirectShot's spawns. |
| Patterns.RadialPattern.constructor | src/ShootingPattern.cpp:38-39 | The settings are stored and the timer starts at 0. |
| Patterns.RadialPattern.Update | src/ShootingPattern.cpp:41-51 | The new timer is RadialShot's. The loop appends, in order, one fresh projectile per shot of the burst, and leaves the existing prefix unchanged. |
| Patterns.LingeringBeamPattern.constructor | src/ShootingPattern.cpp:72-74 | The settings are stored, the timer is 0 and the phase is Idle. |
| Patterns.LingeringBeamPattern.Update | src/ShootingPattern.cpp:76-111 | The new phase and timer are BeamShot's. The list only grows at its end, by the fresh projectiles of BeamShot's spawns. |
| Patterns.Volleyed | src/Enemy.cpp:93-95 | A pattern's tick changes only its timer and phase, never its kind or settings. Every shot is enemy-owned and leaves from the enemy's position. An enemy without a pattern fires nothing. |
| Patterns.Fire | src/Enemy.cpp:93-95 | The dispatch to the held pattern leaves the pattern's value as Volleyed says and appends exactly Volleyed's shots as fresh projectiles. |
| Patterns.MakeDirectAtPlayerPattern | src/ShootingPattern.cpp:61-63 | The factory returns a fresh direct pattern with the given settings and timer 0. |
| Patterns.MakeRadialPattern | src/ShootingPattern.cpp:65-67 | The factory returns a fresh radial pattern with the given settings and timer 0. |
| Patterns.MakeLingeringBeamPattern | src/ShootingPattern.cpp:123-125 | The factory returns a fresh beam pattern with the given settings, timer 0 and phase Idle. |
| Projectiles.KeptExactlyInsideMargin | src/Projectile.cpp:121-126 | isOffScreen is false exactly when −50 ≤ x ≤ W+50 and −50 ≤ y ≤ H+50. |
| Projectiles.DriftIsStraightLine | src/Projectile.cpp:85-91 | Any sequence of update calls (Step after Step, as Drift folds them) keeps the velocity and puts the shot where a single step of the total elapsed time would: the motion is a straight line at constant velocity. |
| Projectiles.Step | src/Projectile.cpp:85-91 | An update never changes the velocity, and it keeps the animation frame in range. |
| Projectiles.Launched | src/Projectile.cpp:22-28 | A new shot starts on a valid frame. |
| Projectiles.Projectile.constructor | src/Projectile.cpp:22-54 | The shot starts at (x, y) with velocity (cos a, sin a)·speed, frame 0 and timer 0. Owner, lifetime and the beam and preview flags are stored as given. |
| Projectiles.Projectile.UpdateAnimation | src/Projectile.cpp:74-83 | The frame counter moves as Animation.Tick says, with a 50 ms frame. |
| Projectiles.Projectile.Update | src/Projectile.cpp:85-91 | position becomes position + velocity·dt, the velocity is unchanged, and the animation ticks. Together this is Step. |
| Enemies.WanderInterval | src/Enemy.cpp:23 | The wander interval 1 + (rand() % 200)/100 lies in [1, 2.99]. |
| Enemies.StartAngle | src/Enemy.cpp:44 | The initial heading is between 0 and 359°, in radians. |
| Enemies.Variation | src/Enemy.cpp:116 | The wander deviation is between −45° and 44°, in radians. |
| Enemies.Wander | src/Enemy.cpp:107-121 | The movement timer restarts exactly when it reaches the interval. The new velocity is then the heading to (0.7·W, H/2) turned by the random deviation, at full speed. Otherwise the time is counted and the velocity kept. |
| Enemies.Moved | src/Enemy.cpp:98-128 | updateMovement never changes health, settings, animation or pattern. An enemy on a path has its path advanced by exactly one Step, stands at the path's new position, and keeps its velocity and movement timer. An enemy without a path keeps its position and stays without a path. Its movement timer and velocity become what Wander gives for that tick: below the interval the time is counted and the velocity kept; on reaching it the timer restarts and the enemy heads at full speed toward the point at 0.7 of the width and half the height, turned by the rolled deviation. |
| Enemies.Advance | src/Enemy.cpp:75-96 | An update neither hurts nor heals, and changes no setting and no pattern kind. Velocity, movement timer and route are what Moved gives. An enemy on a path stands at its path's new position. An enemy without a path then drifts by its new velocity for the tick. The animation advances by one Tick. The new pattern state and the shots fired are exactly what Volleyed gives at the enemy's new position, so every shot is enemy-owned and the pattern fires after the move. |
| Enemies.Enemy.constructor | src/Enemy.cpp:21-47 | A new enemy has one hit point, no path and no pattern, frame 0, a random wander interval, and a random initial heading at full speed. |
| Enemies.Enemy.UpdateAnimation | src/Enemy.cpp:65-73 | The frame counter moves as Animation.Tick says, with an 80 ms frame. |
| Enemies.Enemy.UpdateMovement | src/Enemy.cpp:98-128 | With a path, the path takes one Step and the enemy's position becomes the path's, with velocity and timer unchanged. Without a path, the timer and velocity follow Wander and the position is unchanged. In both cases this is Moved. |
| Enemies.Enemy.Roam | src/Enemy.cpp:107-121 | The wander branch updates the timer and velocity exactly as Wander says. |
| Enemies.Enemy.Update | src/Enemy.cpp:75-96 | The enemy's new value is Advance's. The projectile list only grows at its end, by fresh projectiles of Advance's shots. The path and pattern objects stay attached. |
| Enemies.Enemy.SetPath | src/Enemy.cpp:130-138 | Attaching a path restarts it from the enemy's current position (Restart) and zeroes the velocity. Detaching leaves the velocity alone. Position and health are unchanged. |
| Enemies.Enemy.SetShootingPattern | src/Enemy.cpp:140-142 | The pattern is replaced; position, velocity, health and path are unchanged. |
| Enemies.Enemy.TakeDamage | src/Enemy.cpp:161 | Health becomes max(0, health − damage). |
| Ships.Press | src/Ship.cpp:60-84 | A mapped key sets exactly its flag to the pressed state. An unmapped key changes nothing. |
| Ships.LastEventWins | src/Ship.cpp:60-84 | Two events on the same key leave the state the second one alone would. |
| Ships.MoveVelocity | src/Ship.cpp:90-107 | The velocity is rebuilt from the flags alone. Opposite keys cancel. A straight move is exactly ±speed on its axis and 0 on the other, with up being negative y. |
| Ships.DiagonalDirection | src/Ship.cpp:102-106 | A diagonal velocity is the requested direction rescaled by speed / length. |
| Ships.DiagonalKeepsSpeed | src/Ship.cpp:102-106 | A diagonal velocity has length equal to the ship's speed (on squares). |
| Ships.VelocityFollowsKeys | src/Ship.cpp:90-107 | For a positive speed, each component is negative or positive exactly when only its negative or positive key is held, diagonals included. |
| Ships.ShotDecision | src/Ship.cpp:135-142 | The ship fires exactly when shoot is held and the cooldown has reached the fire rate. The timer resets to 0 exactly then and is otherwise unchanged. |
| Ships.FireRateLimit | src/Ship.cpp:135-147 | Over any run of frames, shots fired × fireRate never exceeds the cooldown already built up plus the time elapsed. |
| Ships.Ship.constructor | src/Ship.cpp:9-25 | A new ship is at rest at (x, y) with no key held, fire rate 0.15, cooldown 0 and 20 hit points. |
| Ships.Ship.HandleInput | src/Ship.cpp:60-84 | The flags change as Press says. |
| Ships.Ship.UpdateInput | src/Ship.cpp:86-88 | The velocity becomes MoveVelocity of the current flags. |
| Ships.Ship.UpdateMovement | src/Ship.cpp:90-107 | The velocity becomes MoveVelocity of the current flags, rebuilt from scratch. |
| Ships.Ship.Update | src/Ship.cpp:47-58 | position += velocity·dt, and the cooldown counts dt. |
| Ships.Ship.ShouldShoot | src/Ship.cpp:135-142 | The answer and the new cooldown are ShotDecision's. |
| Ships.Ship.UpdateShooting | src/Ship.cpp:144-147 | The cooldown counts dt. |
| Ships.Ship.SetPosition | src/Ship.cpp:119-125 | The position becomes exactly (x, y). |
| Ships.Ship.TakeDamage | src/Ship.cpp:161-163 | Health becomes max(0, health − amount). |
| Shmup.FirstHit | src/Game.cpp:553-563 | The inner loop's answer is the first enemy in list order whose box the shot overlaps, with none before it overlapping. There is no answer exactly when no enemy overlaps. |
| Shmup.Misses | src/Game.cpp:549-572 | The first pass keeps exactly the shots that are not player shots hitting some enemy. |
| Shmup.HitsMatchRemovedShots | src/Game.cpp:549-572 | The hits counted over all enemies equal the number of shots the first pass removes: each removed shot damages exactly one enemy. |
| Shmup.EnemyShotsPassThroughEnemies | src/Game.cpp:552 | Enemy shots never damage an enemy, and the first pass keeps all of them. |
| Shmup.Spares | src/Game.cpp:575-585 | The second pass keeps exactly the shots that are not enemy shots overlapping the ship. |
| Shmup.StrikesMatchRemovedShots | src/Game.cpp:575-585 | The number of hits on the ship equals the number of shots the second pass removes. |
| Shmup.Survivors | src/Game.cpp:547-586 | A shot survives checkCollisions exactly when it hits no enemy in the first pass and does not strike the ship in the second. |
| Shmup.TwoPassesAsOne | src/Game.cpp:547-586 | The two passes in sequence filter the list exactly as Survivors does. The ship takes the hits the unfiltered list would cause, because the first pass never removes an enemy shot. |
| Shmup.Touching | src/Game.cpp:214-228 | Contact damage marks exactly the enemies whose box overlaps the ship. |
| Shmup.ClampAsWrittenLeavesCornerOffScreen | src/Game.cpp:230-237 | As written, the clamp moves a ship at (−10, −10) to (−10, 15), which is still off screen in x. |
| Shmup.Clamped | src/Game.cpp:230-237 | The intended clamp puts x in [15, 785] and y in [15, 585]. A coordinate in range is kept and one out of range goes to the nearest edge. |
| Shmup.ClampIdempotent | src/Game.cpp:230-237 | Clamping twice is clamping once. |
| Shmup.ClampAsWrittenAgreesUnlessBothOut | src/Game.cpp:230-237 | The clamp as written agrees with the intended one exactly when x or y was already in range. |
| Shmup.ClampAsWrittenBounds | src/Game.cpp:230-237 | For every position, the clamp as written leaves y in [15, 585]. It leaves x in [15, 785] exactly when x or y was already in range. When y was out of range, x is written back unchanged. |
| Shmup.Flown | src/Game.cpp:186-188 | Every shot is moved by exactly one Projectile step, with its owner kept. |
| Shmup.OnScreen | src/Game.cpp:190 | A moved shot is kept exactly when it is not off screen. |
| Shmup.CulledOnScreen | src/Game.cpp:186-195 | After the projectile loop, every remaining shot is on screen and valid, and the list is no longer than before. |
| Shmup.SweepShots | src/Game.cpp:186-195 | The erase-while-iterating loop leaves exactly the moved shots that are on screen, in their original order. |
| Shmup.CulledExactlyOffScreen | src/Game.cpp:186-195 | A moved shot is still listed after the loop exactly when it is on screen. |
| Shmup.Advanced | src/Game.cpp:199-200 | Every enemy takes exactly one Enemy::update, with its own rand() rolls. |
| Shmup.Living | src/Game.cpp:203-207 | The enemy loop keeps exactly the enemies that are not dead. |
| Shmup.SweepFoes | src/Game.cpp:198-208 | The enemy loop leaves exactly the updated enemies that are alive, in order. The projectile list gains exactly the enemies' shots, enemy by enemy, at its end. |
| Shmup.UpdateCullsOnlyTheAlreadyDead | src/Game.cpp:199-208 | The enemy loop erases exactly the enemies that were dead when it started. An enemy killed in this frame's collisions stays listed and still fires once in the next frame's loop. |
| Shmup.VolleysAreEnemyShots | src/Game.cpp:200 | Everything the enemy loop appends is enemy-owned. |
| Shmup.DamageMovesNothing | src/Game.cpp:553-563 | Shot hits and contact change only health: no enemy moves or is removed, dead or alive. |
| Shmup.EveryHitCosts | src/Game.cpp:549-572 | While no enemy is hit more often than its health allows, the enemies lose together exactly as many hit points as the first pass removes shots. |
| Shmup.FirstTarget | src/Game.cpp:553-563 | The inner enemy loop returns FirstHit. |
| Shmup.AimAt | src/Game.cpp:552-563 | Only player shots look for a target, and they get FirstHit. |
| Shmup.StrikeEnemies | src/Game.cpp:549-572 | The first pass leaves the shots that missed, in order, and each enemy loses one hit point per shot that hit it first (floored at 0). |
| Shmup.HitShip | src/Game.cpp:575-585 | The second pass leaves the shots that spared the ship, in order, and the ship loses one hit point per enemy shot overlapping it (floored at 0). |
| Shmup.Contact | src/Game.cpp:214-228 | Every enemy overlapping the ship loses one hit point, and the ship loses one per such enemy (floored at 0). |
| Shmup.Game.constructor | src/Game.cpp:14-21 | The ship starts in the middle of the window with speed 300 and 20 hit points. There are no enemies and no shots, and the game is running. |
| Shmup.Game.AddEnemy | src/Game.cpp:78 | Level setup pushes an enemy onto the end of the list. |
| Shmup.Game.Shoot | src/Game.cpp:168-180 | The cooldown follows ShotDecision. A player shot 30 units ahead of the ship, along the forward angle, is appended exactly when the ship fires. |
| Shmup.Game.MoveProjectiles | src/Game.cpp:186-195 | The projectile loop leaves Culled of the old list. |
| Shmup.Game.UpdateEnemies | src/Game.cpp:197-208 | The enemy loop leaves the living updated enemies and appends their shots. |
| Shmup.Game.PlayerShotsHitEnemies | src/Game.cpp:549-572 | The first pass leaves the shots that missed and the enemies struck. |
| Shmup.Game.EnemyShotsHitShip | src/Game.cpp:575-585 | The second pass leaves the shots that spared the ship and damages the ship once per strike. |
| Shmup.Game.CheckCollisions | src/Game.cpp:547-586 | Both passes leave the Survivors of the shot list. The enemies are struck by the player shots. The ship is damaged by every enemy shot overlapping it in the list it was given. |
| Shmup.Game.ContactDamage | src/Game.cpp:213-228 | Enemies touching the ship are bumped, and the ship loses one hit point per touching enemy. |
| Shmup.Game.ClampShip | src/Game.cpp:230-237 | The ship ends at the intended clamp of its position (see Findings). |
| Shmup.Game.Update | src/Game.cpp:164-244 | After a frame, the ship is on screen, because the frame uses the intended clamp (ClampShip) in place of the code as written. The game is still running exactly when it was running and the ship has health left. All lists stay valid. |

## Left out

- Rendering, textures, sprites, fonts, audio, the window, events, the clock, the run loop, `main` and console logging (the beam pattern's messages at src/ShootingPattern.cpp:84 and 97) are left out: they are I/O. Sprite frame sizes are constants (`ShotFrame`, `EnemyFrame`) or constructor data (the ship's `sprite`). `None` stands for a texture that failed to load.
- `std::rand()` is left out. Its results are parameters: `intervalRoll` and `angleRoll` in the Enemy constructor, `roll` in updateMovement, and `rolls(j)` for the j-th enemy of the enemy loop.
- Floating point is left out: all values are exact reals, with no rounding and no overflow. The `static_cast<int>` in worldToTile is taken without 32-bit truncation.
- `std::cos`, `std::sin`, `std::atan2` and `std::sqrt` are uninterpreted functions. The square root is only known to be positive on positive inputs.
- Ships.DiagonalKeepsSpeed: holds only where the square root is exact at the requested vector, because the square root is uninterpreted. It is stated on squared lengths.
- Waypoints.ShortStepShrinksDistance: holds only where the square root is exact at the current squared distance, because the square root is uninterpreted. It is stated on squared distances.
- Projectile lifetime, beam shape and preview behaviour are left out. include/Projectile.h:9 declares only a 4-argument constructor, and src/Projectile.cpp has no lifetime, beam or preview fields. The 8-argument constructor and its extra fields are inferred from what the patterns pass it. No code in this model's files reads those fields. Game's 3-argument call is modelled as a Player shot with speed 500 and no lifetime.
- Getters are not separate members: getPosition, getHealth, getOwner, isFinished, getSpeed and setSpeed of Ship. Each is read or written as a field. `hasPath`, `isDead`, `getBounds`, `checkCollision`, `isOffScreen` and `getMode` are predicates and functions without contracts of their own, and their bodies are the source's. `Enemy::maxHealth` is stored and never read.
- Game does not hold Projectile and Enemy objects. Its two lists are sequences of values (`Shot`, `Foe`), advanced by the same step functions the object methods are proved to follow. Aliasing between list entries and in-place update of the objects inside the lists are therefore not captured. A `Foe` holds its path and pattern as values too.
- The two collision passes read the ship's box once per pass, where the source calls getBounds for every shot. The ship does not move during a pass, so the box is the same.
- The level setup (src/Game.cpp:60-104) is represented only by Game.AddEnemy. Ship::handleAimInput has no body in the source, so it is not part of this model.
- Shmup.Game.Update: states the game-over rule, the on-screen position and validity. The on-screen position is the intended clamp's guarantee. The code as written does not give it: holding up-left in the top-left corner leaves x below 15 on every frame (Shmup.ClampAsWrittenBounds, Findings). The contents of both lists after a frame are stated step by step by the methods it calls (Shoot, MoveProjectiles, UpdateEnemies, CheckCollisions, ContactDamage), not composed into one postcondition.
- Shmup.Game.ClampShip: implements the intended clamp, not the code as written (see Findings).

## Findings

| source | as written | input that shows it | evidently intended | confidence | as-written member | corrected member |
|---|---|---|---|---|---|---|
| src/Game.cpp:230-237 | All four tests read `pos`, the position taken before the clamp. Each `setPosition` writes back that stale copy's other coordinate, so a y correction undoes an x correction made just before it. | ship at (−10, −10): x is set to 15, then y is set to 15 with x written back as −10, leaving (−10, 15) | both coordinates clamped independently into [15, 785] × [15, 585] | not executed | Shmup.ClampAsWrittenLeavesCornerOffScreen | Shmup.Clamped |
